/** The three catalog entities as the remote API returns them. Subcategories
    and products refer to their parents by id only. */
module Catalog {
  import opened Text

  datatype Category = Category(
    id: int,
    name_az: string, name_en: string, name_ru: string,
    img: seq<string>)

  datatype Subcategory = Subcategory(
    id: int,
    name_az: string, name_en: string, name_ru: string,
    categoryId: int)

  datatype Product = Product(
    id: int,
    name_az: string, name_en: string, name_ru: string,
    description_az: string, description_en: string, description_ru: string,
    categoryId: int, subcategoryId: int,
    price: real,
    ingridients: seq<string>,
    sizes: seq<string>,
    status: bool,
    isStok: bool,
    img: seq<string>)

  /** The case-insensitive name search shared by the three views: the already
      lower-cased term `q` occurs in the lower-cased az, en or ru name. */
  predicate AnyNameIncludes(name_az: string, name_en: string, name_ru: string, q: string) {
    Includes(Lower(name_az), q) || Includes(Lower(name_en), q) || Includes(Lower(name_ru), q)
  }

  /** The name search, stated by occurrence positions rather than by `Includes`. */
  lemma AnyNameIncludesIff(name_az: string, name_en: string, name_ru: string, q: string)
    ensures AnyNameIncludes(name_az, name_en, name_ru, q) <==>
              (exists i: nat :: OccursAt(Lower(name_az), q, i))
              || (exists i: nat :: OccursAt(Lower(name_en), q, i))
              || (exists i: nat :: OccursAt(Lower(name_ru), q, i))
  {
    IncludesIffOccurs(Lower(name_az), q);
    IncludesIffOccurs(Lower(name_en), q);
    IncludesIffOccurs(Lower(name_ru), q);
  }
}

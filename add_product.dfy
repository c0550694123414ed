/** The product admin view: its edit form, the full payloads it rebuilds
    before every create, update and status toggle, and the component state
    that its handlers and effects update. */
module AddProduct {
  import opened Common
  import opened Text
  import opened Catalog
  import opened ProductView

  /** The edit form. Selects and the price input hold the empty string until
      something is chosen; that is `None` here. */
  datatype ProductForm = ProductForm(
    name_az: string, name_en: string, name_ru: string,
    description_az: string, description_en: string, description_ru: string,
    categoryId: Option<int>, subcategoryId: Option<int>,
    price: Option<real>,
    ingridients: string,
    sizes: string,
    status: bool,
    isStok: bool,
    imgUrls: seq<string>)

  /** The form of a new product, also the form before anything is opened. */
  const BlankForm: ProductForm :=
    ProductForm("", "", "", "", "", "", None, None, None, "", "", true, false, [])

  /** The form opened for editing a product: lists are joined with commas.
      Whatever options are on screen, it passes the `required` gate iff the
      product has all three names and its category and subcategory are among
      the rendered options. */
  function FormOf(p: Product): (f: ProductForm)
    ensures forall categories: seq<Category>, options: seq<Subcategory> :: Submittable(f, categories, options) <==>
              p.name_az != "" && p.name_en != "" && p.name_ru != ""
              && (exists c :: c in categories && c.id == p.categoryId)
              && (exists s :: s in options && s.id == p.subcategoryId)
  {
    ProductForm(p.name_az, p.name_en, p.name_ru,
                p.description_az, p.description_en, p.description_ru,
                Some(p.categoryId), Some(p.subcategoryId), Some(p.price),
                Join(p.ingridients, ','), Join(p.sizes, ','),
                p.status, p.isStok, p.img)
  }

  /** The `required` inputs of the form as the browser checks them: it does not
      fire the submit handler while a name or the price is empty, or while a
      select shows its placeholder. A controlled select shows the placeholder
      when its value is not among the options it renders: `categories` for the
      category select, `options` (the shared `filteredSubcats`) for the
      subcategory select. */
  predicate Submittable(f: ProductForm, categories: seq<Category>, options: seq<Subcategory>) {
    f.name_az != "" && f.name_en != "" && f.name_ru != "" && f.price.Some?
    && f.categoryId.Some? && (exists c :: c in categories && c.id == f.categoryId.value)
    && f.subcategoryId.Some? && (exists s :: s in options && s.id == f.subcategoryId.value)
  }

  /** The fixed ingredient list every create and update sends. */
  const FixedIngredients: seq<string> := ["kofe"]

  /** The full representation the remote API expects. The submit payload is
      built by spreading the form, so it also carries the form's `imgUrls`;
      the toggle payload does not. */
  datatype ProductPayload = ProductPayload(
    name_az: string, name_en: string, name_ru: string,
    description_az: string, description_en: string, description_ru: string,
    categoryId: int, subcategoryId: int,
    price: real,
    ingridients: seq<string>,
    sizes: seq<string>,
    status: bool,
    isStok: bool,
    img: seq<string>,
    imgUrls: Option<seq<string>>)

  /** The image array sent: the form's URLs, or the single absolute URL of a
      freshly uploaded file. */
  function ImageArray(imgUrls: seq<string>, uploaded: Option<string>): (r: seq<string>)
    ensures uploaded.None? ==> r == imgUrls
    ensures uploaded.Some? ==> |r| == 1 && Origin <= r[0] && r[0][|Origin|..] == uploaded.value
  {
    match uploaded
    case None => imgUrls
    case Some(path) => [AbsoluteUrl(path)]
  }

  function TrimAll(xs: seq<string>): seq<string> {
    seq(|xs|, i requires 0 <= i < |xs| => Trim(xs[i]))
  }

  /** The sizes sent: the comma-separated sizes field, each piece trimmed. One
      size per comma-separated field, in order, each that field with only its
      surrounding white space removed. */
  function SizesOf(sizes: string): (r: seq<string>)
    ensures |r| >= 1
    ensures var pieces := Split(sizes, ',');
            |r| == |pieces| && forall k :: 0 <= k < |r| ==> TrimmedFrom(pieces[k], r[k]) && IsTrimmed(r[k])
    ensures forall k :: 0 <= k < |r| ==> ',' !in r[k]
  {
    var pieces := Split(sizes, ',');
    var r := TrimAll(pieces);
    forall k | 0 <= k < |r|
      ensures TrimmedFrom(pieces[k], r[k]) && IsTrimmed(r[k]) && ',' !in r[k]
    {
      assert r[k] == Trim(pieces[k]);
      TrimmedKeepsOut(pieces[k], r[k], ',');
    }
    r
  }

  /** The product the server holds after replacing product `id` with a payload
      (updates are full replacements, not patches). */
  function Stored(id: int, pl: ProductPayload): Product {
    Product(id, pl.name_az, pl.name_en, pl.name_ru,
            pl.description_az, pl.description_en, pl.description_ru,
            pl.categoryId, pl.subcategoryId, pl.price,
            pl.ingridients, pl.sizes, pl.status, pl.isStok, pl.img)
  }

  /** The payload of the submit handler: the form's fields with the ids and
      the price as numbers, the fixed ingredient list, the trimmed sizes, the
      given image array, and the form's own `imgUrls` carried along by the spread. */
  function SubmitPayload(f: ProductForm, img: seq<string>): (pl: ProductPayload)
    requires f.categoryId.Some? && f.subcategoryId.Some? && f.price.Some?
    ensures pl.name_az == f.name_az && pl.name_en == f.name_en && pl.name_ru == f.name_ru
    ensures pl.description_az == f.description_az && pl.description_en == f.description_en
            && pl.description_ru == f.description_ru
    ensures f.categoryId == Some(pl.categoryId) && f.subcategoryId == Some(pl.subcategoryId) && f.price == Some(pl.price)
    ensures pl.ingridients == FixedIngredients && pl.sizes == SizesOf(f.sizes)
    ensures pl.status == f.status && pl.isStok == f.isStok && pl.img == img && pl.imgUrls == Some(f.imgUrls)
  {
    ProductPayload(f.name_az, f.name_en, f.name_ru,
                   f.description_az, f.description_en, f.description_ru,
                   f.categoryId.value, f.subcategoryId.value, f.price.value,
                   FixedIngredients, SizesOf(f.sizes), f.status, f.isStok,
                   img, Some(f.imgUrls))
  }

  datatype ToggleMode = Activate | Deactivate

  /** The confirmation a product's status button asks for: the opposite of its status. */
  function ModeFor(status: bool): (m: ToggleMode)
    ensures (m == Activate) == !status
  {
    if status then Deactivate else Activate
  }

  /** The payload of the status toggle, rebuilt from the product in memory:
      stored and read back it gives the product with only its status set by the
      mode and its ingredients replaced by the fixed list. */
  function TogglePayload(p: Product, mode: ToggleMode): (pl: ProductPayload)
    ensures Stored(p.id, pl) == p.(status := mode == Activate, ingridients := FixedIngredients)
  {
    ProductPayload(p.name_az, p.name_en, p.name_ru,
                   p.description_az, p.description_en, p.description_ru,
                   p.categoryId, p.subcategoryId, p.price,
                   FixedIngredients, p.sizes, mode == Activate, p.isStok,
                   p.img, None)
  }

  /** The mode offered for a product flips its status. */
  lemma ToggleFlipsStatus(p: Product)
    ensures TogglePayload(p, ModeFor(p.status)).status == !p.status
    ensures Stored(p.id, TogglePayload(p, ModeFor(p.status))) == p.(status := !p.status, ingridients := FixedIngredients)
  {
  }

  /** Opening a product for editing and submitting the form untouched, without
      a new image, stores the product again except that its ingredients become
      the fixed list and an empty size list comes back as one empty size. The
      browser lets that submit through when the product has its three names
      and its category and subcategory are among the options on screen. */
  lemma EditRoundTrip(p: Product, categories: seq<Category>, options: seq<Subcategory>)
    requires forall k :: 0 <= k < |p.sizes| ==> ',' !in p.sizes[k] && IsTrimmed(p.sizes[k])
    ensures p.name_az != "" && p.name_en != "" && p.name_ru != ""
            && (exists c :: c in categories && c.id == p.categoryId) && (exists s :: s in options && s.id == p.subcategoryId)
            ==> Submittable(FormOf(p), categories, options)
    ensures Stored(p.id, SubmitPayload(FormOf(p), ImageArray(FormOf(p).imgUrls, None)))
            == p.(ingridients := FixedIngredients, sizes := if p.sizes == [] then [""] else p.sizes)
  {
    SplitJoin(p.sizes, ',');
    var pieces := Split(Join(p.sizes, ','), ',');
    forall k | 0 <= k < |pieces| ensures Trim(pieces[k]) == pieces[k] {
      TrimTrimmed(pieces[k]);
    }
    assert TrimAll(pieces) == pieces;
  }

  datatype ProductPage = ProductPage(items: seq<Product>, totalPages: int)

  /** The remote calls the view issues, in the order it issues them. */
  datatype Call =
    | GetCategories
    | GetSubcategories
    | GetProducts(page: int, categoryId: Option<int>, subcategoryId: Option<int>)
    | UploadImage
    | CreateProduct(payload: ProductPayload)
    | EditProduct(id: int, payload: ProductPayload)
    | DeleteProduct(delId: Option<int>)

  /** The first product in memory with the given id (`find`), if any. */
  function FindProduct(ps: seq<Product>, id: Option<int>): (r: Option<Product>)
    ensures r.Some? ==> r.value in ps && id == Some(r.value.id)
    ensures r.Some? ==> exists i :: 0 <= i < |ps| && ps[i] == r.value
                                  && forall j :: 0 <= j < i ==> id != Some(ps[j].id)
    ensures r.None? <==> forall q :: q in ps ==> id != Some(q.id)
  {
    Find(ps, (q: Product) => id == Some(q.id))
  }

  /** The Prev button: `Math.max(page - 1, 1)`, the larger of the two. */
  function PrevPageOf(page: int): (r: int)
    ensures r >= page - 1 && r >= 1 && (r == page - 1 || r == 1)
  {
    if page - 1 > 1 then page - 1 else 1
  }

  /** The Next button: `Math.min(page + 1, totalPages)`, the smaller of the two. */
  function NextPageOf(page: int, totalPages: int): (r: int)
    ensures r <= page + 1 && r <= totalPages && (r == page + 1 || r == totalPages)
  {
    if page + 1 < totalPages then page + 1 else totalPages
  }

  /** Paging keeps a page that lies within `[1, totalPages]` there, and Prev on
      the first page and Next on the last page change nothing. */
  lemma PagingStaysInBounds(page: int, totalPages: int)
    requires 1 <= page <= totalPages
    ensures 1 <= PrevPageOf(page) <= totalPages && 1 <= NextPageOf(page, totalPages) <= totalPages
    ensures page == 1 ==> PrevPageOf(page) == 1
    ensures page == totalPages ==> NextPageOf(page, totalPages) == totalPages
    ensures page > 1 ==> PrevPageOf(page) == page - 1
    ensures page < totalPages ==> NextPageOf(page, totalPages) == page + 1
  {
  }

  /** When the server reports no pages, the enabled Next button moves page 1 to page 0. */
  lemma NextWithNoPages()
    ensures NextPageOf(1, 0) == 0
  {
  }

  /** The state of the product admin view. */
  class ProductPanel {
    var products: seq<Product>
    var categories: seq<Category>
    var allSubcats: seq<Subcategory>
    var filteredSubcats: seq<Subcategory>
    var search: string
    var minPrice: Option<real>
    var maxPrice: Option<real>
    var filterCat: Option<int>
    var filterSubcat: Option<int>
    var popupOpen: bool
    var deletePopup: bool
    var togglePopup: bool
    var toggleMode: ToggleMode
    var loading: bool
    var delId: Option<int>
    var toggleId: Option<int>
    var editId: Option<int>
    var imageFile: bool
    var page: int
    var totalPages: int
    var form: ProductForm

    constructor ()
      ensures products == [] && categories == [] && allSubcats == [] && filteredSubcats == []
      ensures search == "" && minPrice == None && maxPrice == None
      ensures filterCat == None && filterSubcat == None
      ensures !popupOpen && !deletePopup && !togglePopup && toggleMode == Deactivate && !loading
      ensures delId == None && toggleId == None && editId == None && !imageFile
      ensures page == 1 && totalPages == 1 && form == BlankForm
      ensures FiltersConsistent()
    {
      products, categories, allSubcats, filteredSubcats := [], [], [], [];
      search, minPrice, maxPrice := "", None, None;
      filterCat, filterSubcat := None, None;
      popupOpen, deletePopup, togglePopup, toggleMode, loading := false, false, false, Deactivate, false;
      delId, toggleId, editId, imageFile := None, None, None, false;
      page, totalPages, form := 1, 1, BlankForm;
    }

    /** The subcategory filter select is disabled while no category filter is
        set, so a subcategory filter never stands without a category filter. */
    predicate FiltersConsistent()
      reads this
    {
      filterSubcat.Some? ==> filterCat.Some?
    }

    /** Mount effect: categories and subcategories are fetched together and
        stored only when both arrive. */
    method LoadFilters(cats: Reply<seq<Category>>, subs: Reply<seq<Subcategory>>) returns (calls: seq<Call>)
      modifies this`categories, this`allSubcats
      ensures calls == [GetCategories, GetSubcategories]
      ensures cats.Ok? && subs.Ok? ==> categories == cats.value && allSubcats == subs.value
      ensures !(cats.Ok? && subs.Ok?) ==> categories == old(categories) && allSubcats == old(allSubcats)
    {
      calls := [GetCategories, GetSubcategories];
      if cats.Ok? && subs.Ok? {
        categories := cats.value;
        allSubcats := subs.value;
      }
    }

    /** List effect, run after page, filterCat, filterSubcat or allSubcats
        changed: derives the filter's subcategory options, then fetches the
        page under the category and subcategory filters. */
    method LoadData(res: Reply<ProductPage>) returns (calls: seq<Call>)
      modifies this`filteredSubcats, this`products, this`totalPages
      ensures filteredSubcats == SubcategoryOptions(allSubcats, filterCat)
      ensures calls == [GetProducts(page, filterCat, filterSubcat)]
      ensures res.Ok? ==> products == res.value.items && totalPages == res.value.totalPages
      ensures res.Failed? ==> products == old(products) && totalPages == old(totalPages)
    {
      filteredSubcats := SubcategoryOptions(allSubcats, filterCat);
      calls := [GetProducts(page, filterCat, filterSubcat)];
      if res.Ok? {
        products := res.value.items;
        totalPages := res.value.totalPages;
      }
    }

    /** Form effect, run after form.categoryId or allSubcats changed: the
        options follow the form's category and the chosen subcategory is
        cleared, also right after an edit form was opened. */
    method SyncFormSubcategories()
      modifies this`filteredSubcats, this`form
      ensures filteredSubcats == SubcategoryOptions(allSubcats, form.categoryId)
      ensures form == old(form).(subcategoryId := None)
    {
      if form.categoryId.Some? {
        filteredSubcats := SubcategoryOptions(allSubcats, form.categoryId);
      } else {
        filteredSubcats := [];
      }
      form := form.(subcategoryId := None);
    }

    /** The form's category select. */
    method ChangeFormCategory(c: Option<int>)
      modifies this`form
      ensures form == old(form).(categoryId := c)
    {
      form := form.(categoryId := c);
    }

    /** The image file input: a file was picked, or the picker was dismissed. */
    method ChooseImage(chosen: bool)
      modifies this`imageFile
      ensures imageFile == chosen
    {
      imageFile := chosen;
    }

    method HandleFilterCat(c: Option<int>)
      modifies this`filterCat, this`filterSubcat, this`page
      ensures filterCat == c && filterSubcat == None && page == 1
      ensures FiltersConsistent()
    {
      filterCat := c;
      filterSubcat := None;
      page := 1;
    }

    /** The subcategory filter select; it is disabled, so nothing happens,
        while no category filter is set. */
    method HandleFilterSubcat(s: Option<int>)
      modifies this`filterSubcat, this`page
      ensures filterCat.Some? ==> filterSubcat == s && page == 1
      ensures filterCat.None? ==> filterSubcat == old(filterSubcat) && page == old(page)
      ensures old(FiltersConsistent()) ==> FiltersConsistent()
    {
      if filterCat.Some? {
        filterSubcat := s;
        page := 1;
      }
    }

    /** The search box narrows the displayed rows only: nothing is fetched. */
    method SetSearch(s: string)
      modifies this`search
      ensures search == s
    {
      search := s;
    }

    method SetMinPrice(bound: Option<real>)
      modifies this`minPrice
      ensures minPrice == bound
    {
      minPrice := bound;
    }

    method SetMaxPrice(bound: Option<real>)
      modifies this`maxPrice
      ensures maxPrice == bound
    {
      maxPrice := bound;
    }

    /** The Prev button, disabled on page 1. */
    method PrevPage()
      modifies this`page
      ensures page == PrevPageOf(old(page))
      ensures old(1 <= page <= totalPages) ==> 1 <= page <= totalPages
      ensures old(page) == 1 ==> page == 1
    {
      if page != 1 {
        page := PrevPageOf(page);
      }
    }

    /** The Next button, disabled on the last page. */
    method NextPage()
      modifies this`page
      ensures page == NextPageOf(old(page), totalPages)
      ensures old(1 <= page <= totalPages) ==> 1 <= page <= totalPages
      ensures old(page) == totalPages ==> page == totalPages
    {
      if page != totalPages {
        page := NextPageOf(page, totalPages);
      }
    }

    /** The Reset button clears every filter and returns to page 1. */
    method Reset()
      modifies this`filterCat, this`filterSubcat, this`search, this`minPrice, this`maxPrice, this`page
      ensures filterCat == None && filterSubcat == None && search == ""
      ensures minPrice == None && maxPrice == None && page == 1
      ensures FiltersConsistent()
    {
      filterCat, filterSubcat, search := None, None, "";
      minPrice, maxPrice, page := None, None, 1;
    }

    /** Opens the form blank for a new product, or filled from `p` for editing. */
    method OpenPopup(p: Option<Product>)
      modifies this`editId, this`form, this`imageFile, this`popupOpen
      ensures p.Some? ==> editId == Some(p.value.id) && form == FormOf(p.value)
      ensures p.None? ==> editId == None && form == BlankForm
      ensures !imageFile && popupOpen
    {
      if p.Some? {
        editId := Some(p.value.id);
        form := FormOf(p.value);
      } else {
        editId := None;
        form := BlankForm;
      }
      imageFile := false;
      popupOpen := true;
    }

    /** A row's edit button followed by the render it causes. React runs the
        form effect only when the form's category changed, and that effect
        clears the subcategory the form was just filled with, so the `required`
        subcategory select then blocks an untouched submit. The form starts
        with no category, so this happens on the first edit after mounting
        unless a category was chosen in an earlier form. When the effect does
        not run, the subcategory select renders whatever `filteredSubcats`
        holds, which the list effect may have replaced with the filter bar's
        options, and the submit goes through only if the product's
        subcategory is among them. */
    method OpenEditForm(p: Product)
      modifies this`editId, this`form, this`imageFile, this`popupOpen, this`filteredSubcats
      ensures editId == Some(p.id) && !imageFile && popupOpen
      ensures old(form.categoryId) == Some(p.categoryId) ==>
                form == FormOf(p) && filteredSubcats == old(filteredSubcats)
                && (Submittable(form, categories, filteredSubcats) <==>
                      p.name_az != "" && p.name_en != "" && p.name_ru != ""
                      && (exists c :: c in categories && c.id == p.categoryId)
                      && (exists s :: s in old(filteredSubcats) && s.id == p.subcategoryId))
      ensures old(form.categoryId) != Some(p.categoryId) ==>
                form == FormOf(p).(subcategoryId := None) && !Submittable(form, categories, filteredSubcats)
                && filteredSubcats == SubcategoryOptions(allSubcats, Some(p.categoryId))
    {
      var before := form.categoryId;
      OpenPopup(Some(p));
      if form.categoryId != before {
        SyncFormSubcategories();
      }
    }

    method ClosePopup()
      modifies this`popupOpen
      ensures !popupOpen
    {
      popupOpen := false;
    }

    /** Submits the form: uploads a chosen image first, then updates when an
        edit id is set and creates otherwise; after a successful save the form
        closes and the current page is fetched again under the current filters.
        The reload replaces the products but not the page count. */
    method SubmitForm(upload: Reply<string>, saved: bool, reload: Reply<ProductPage>) returns (calls: seq<Call>)
      modifies this`loading, this`popupOpen, this`products
      ensures !Submittable(form, categories, filteredSubcats) ==>
                calls == [] && loading == old(loading) && popupOpen == old(popupOpen) && products == old(products)
      ensures Submittable(form, categories, filteredSubcats) && imageFile && upload.Failed? ==>
                calls == [UploadImage] && !loading && popupOpen == old(popupOpen) && products == old(products)
      ensures Submittable(form, categories, filteredSubcats) && (!imageFile || upload.Ok?) ==>
                var uploaded := if imageFile then Some(upload.value) else None;
                var payload := SubmitPayload(form, ImageArray(form.imgUrls, uploaded));
                var save := if IsSet(editId) then EditProduct(editId.value, payload) else CreateProduct(payload);
                var sent := (if imageFile then [UploadImage] else []) + [save];
                && !loading
                && (!saved ==> calls == sent && popupOpen == old(popupOpen) && products == old(products))
                && (saved ==> calls == sent + [GetProducts(page, filterCat, filterSubcat)] && !popupOpen
                              && products == if reload.Ok? then reload.value.items else old(products))
      ensures totalPages == old(totalPages)
    {
      if !Submittable(form, categories, filteredSubcats) {
        return [];
      }
      loading := true;
      calls := [];
      var imgArr := form.imgUrls;
      if imageFile {
        calls := calls + [UploadImage];
        if upload.Failed? {
          loading := false;
          return;
        }
        imgArr := [AbsoluteUrl(upload.value)];
      }
      var payload := SubmitPayload(form, imgArr);
      if IsSet(editId) {
        calls := calls + [EditProduct(editId.value, payload)];
      } else {
        calls := calls + [CreateProduct(payload)];
      }
      if saved {
        popupOpen := false;
        calls := calls + [GetProducts(page, filterCat, filterSubcat)];
        if reload.Ok? {
          products := reload.value.items;
        }
      }
      loading := false;
    }

    /** A row's delete button asks for confirmation of deleting that product. */
    method OpenDelete(p: Product)
      modifies this`delId, this`deletePopup
      ensures delId == Some(p.id) && deletePopup
    {
      delId := Some(p.id);
      deletePopup := true;
    }

    method CancelDelete()
      modifies this`deletePopup
      ensures !deletePopup
    {
      deletePopup := false;
    }

    /** Confirmed delete: on success the popup closes and the current page is
        fetched again; on failure the popup stays open. */
    method HandleDelete(deleted: bool, reload: Reply<ProductPage>) returns (calls: seq<Call>)
      modifies this`loading, this`deletePopup, this`products
      ensures calls == [DeleteProduct(delId)] + (if deleted then [GetProducts(page, filterCat, filterSubcat)] else [])
      ensures deletePopup == (old(deletePopup) && !deleted)
      ensures products == if deleted && reload.Ok? then reload.value.items else old(products)
      ensures !loading && totalPages == old(totalPages)
    {
      loading := true;
      calls := [DeleteProduct(delId)];
      if deleted {
        deletePopup := false;
        calls := calls + [GetProducts(page, filterCat, filterSubcat)];
        if reload.Ok? {
          products := reload.value.items;
        }
      }
      loading := false;
    }

    /** A row's status button asks to confirm the opposite of the product's status. */
    method OpenToggle(p: Product)
      modifies this`toggleId, this`toggleMode, this`togglePopup
      ensures toggleId == Some(p.id) && toggleMode == ModeFor(p.status) && togglePopup
    {
      toggleId := Some(p.id);
      toggleMode := if p.status then Deactivate else Activate;
      togglePopup := true;
    }

    method CancelToggle()
      modifies this`togglePopup
      ensures !togglePopup
    {
      togglePopup := false;
    }

    /** Confirmed toggle: rebuilds the full payload from the product in memory
        and sends it as an update. A product missing from memory sends
        nothing and leaves the popup open, as does a failed update. */
    method HandleToggleStatus(saved: bool, reload: Reply<ProductPage>) returns (calls: seq<Call>)
      modifies this`loading, this`togglePopup, this`products
      ensures FindProduct(old(products), toggleId).None? ==>
                calls == [] && togglePopup == old(togglePopup) && products == old(products)
      ensures FindProduct(old(products), toggleId).Some? ==>
                var edit := EditProduct(toggleId.value, TogglePayload(FindProduct(old(products), toggleId).value, toggleMode));
                && (!saved ==> calls == [edit] && togglePopup == old(togglePopup) && products == old(products))
                && (saved ==> calls == [edit, GetProducts(page, filterCat, filterSubcat)] && !togglePopup
                              && products == if reload.Ok? then reload.value.items else old(products))
      ensures !loading && totalPages == old(totalPages)
    {
      loading := true;
      calls := [];
      var prod := FindProduct(products, toggleId);
      if prod.Some? {
        calls := [EditProduct(toggleId.value, TogglePayload(prod.value, toggleMode))];
        if saved {
          togglePopup := false;
          calls := calls + [GetProducts(page, filterCat, filterSubcat)];
          if reload.Ok? {
            products := reload.value.items;
          }
        }
      }
      loading := false;
    }
  }
}

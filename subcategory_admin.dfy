/** The subcategory admin view: the full subcategory list narrowed by a
    category filter and a name search, a create/edit form that insists on a
    category, and a delete that asks for confirmation first. */
module SubcategoryAdmin {
  import opened Common
  import opened Text
  import opened Catalog

  predicate InCategory(s: Subcategory, filterCat: Option<int>) {
    filterCat.None? || s.categoryId == filterCat.value
  }

  predicate NameMatches(s: Subcategory, search: string) {
    AnyNameIncludes(s.name_az, s.name_en, s.name_ru, Lower(search))
  }

  /** The filter effect's list: narrowed to the selected category when one is
      set, then to the name search when the search is not empty. */
  function FilterSubcategories(subs: seq<Subcategory>, filterCat: Option<int>, search: string): (r: seq<Subcategory>)
    ensures |r| <= |subs|
    ensures forall s :: s in r <==> s in subs && InCategory(s, filterCat) && (search == [] || NameMatches(s, search))
  {
    var list := if filterCat.Some? then Filter(subs, (s: Subcategory) => InCategory(s, filterCat)) else subs;
    if search != [] then Filter(list, (s: Subcategory) => NameMatches(s, search)) else list
  }

  predicate Shown(s: Subcategory, filterCat: Option<int>, search: string) {
    InCategory(s, filterCat) && (search == [] || NameMatches(s, search))
  }

  /** The filtered list is one filter by `Shown`. */
  lemma FilterSubcategoriesIsOneFilter(subs: seq<Subcategory>, filterCat: Option<int>, search: string)
    ensures FilterSubcategories(subs, filterCat, search)
            == Filter(subs, (s: Subcategory) => Shown(s, filterCat, search))
  {
    var cat := (s: Subcategory) => InCategory(s, filterCat);
    var shown := (s: Subcategory) => Shown(s, filterCat, search);
    if filterCat.None? {
      FilterAll(subs, cat);
    }
    if search != [] {
      FilterFuse(subs, cat, (s: Subcategory) => NameMatches(s, search), shown);
    } else {
      FilterFuse(subs, cat, (s: Subcategory) => true, shown);
      FilterAll(Filter(subs, cat), (s: Subcategory) => true);
    }
  }

  /** The filtered list is an order-preserving subsequence of the subcategories
      that holds exactly the ones in the selected category and matching the
      search, each with all its copies. */
  lemma FilterSubcategoriesSpec(subs: seq<Subcategory>, filterCat: Option<int>, search: string)
    ensures var r := FilterSubcategories(subs, filterCat, search);
            && Subsequence(r, subs)
            && (forall s :: s in r <==> s in subs && Shown(s, filterCat, search))
            && (forall s :: multiset(r)[s] == if Shown(s, filterCat, search) then multiset(subs)[s] else 0)
  {
    var shown := (s: Subcategory) => Shown(s, filterCat, search);
    FilterSubcategoriesIsOneFilter(subs, filterCat, search);
    FilterIsSubsequence(subs, shown);
    FilterCounts(subs, shown);
  }

  /** What the category column shows for a subcategory. */
  datatype Label = CategoryName(name: string) | RawCategoryId(id: int)

  /** The az name of the first category with the subcategory's `categoryId`;
      the raw id when there is none or its az name is empty. */
  function CategoryLabel(categories: seq<Category>, sub: Subcategory): (l: Label)
    ensures l.CategoryName? ==> exists c :: c in categories && c.id == sub.categoryId && c.name_az == l.name && l.name != ""
    ensures (forall c :: c in categories ==> c.id != sub.categoryId) ==> l == RawCategoryId(sub.categoryId)
    ensures l.RawCategoryId? ==> l.id == sub.categoryId
    ensures forall i :: 0 <= i < |categories| && categories[i].id == sub.categoryId
                        && (forall j :: 0 <= j < i ==> categories[j].id != sub.categoryId) ==>
              l == if categories[i].name_az != "" then CategoryName(categories[i].name_az) else RawCategoryId(sub.categoryId)
  {
    match Find(categories, (c: Category) => c.id == sub.categoryId)
    case Some(c) => if c.name_az != "" then CategoryName(c.name_az) else RawCategoryId(sub.categoryId)
    case None => RawCategoryId(sub.categoryId)
  }

  datatype SubcategoryForm = SubcategoryForm(name_az: string, name_en: string, name_ru: string, categoryId: Option<int>)

  const BlankForm: SubcategoryForm := SubcategoryForm("", "", "", None)

  datatype SubcategoryPayload = SubcategoryPayload(name_az: string, name_en: string, name_ru: string, categoryId: int)

  /** The payload sent on submit: the three names and the numeric category id
      taken from a form whose category is chosen. */
  function PayloadOf(f: SubcategoryForm): (pl: SubcategoryPayload)
    requires f.categoryId.Some?
    ensures SubcategoryForm(pl.name_az, pl.name_en, pl.name_ru, Some(pl.categoryId)) == f
  {
    SubcategoryPayload(f.name_az, f.name_en, f.name_ru, f.categoryId.value)
  }

  /** The remote calls the view issues, in order. */
  datatype Call =
    | GetAllCategories
    | GetAllSubcategories
    | CreateSubcategory(payload: SubcategoryPayload)
    | UpdateSubcategory(id: int, payload: SubcategoryPayload)
    | DeleteSubcategory(subId: int)

  /** The calls of a reload: subcategories are asked for only after the
      categories arrived. */
  function LoadCalls(cats: Reply<seq<Category>>): (r: seq<Call>)
    ensures |r| == (if cats.Ok? then 2 else 1) && r[0] == GetAllCategories
    ensures cats.Ok? ==> r[1] == GetAllSubcategories
  {
    [GetAllCategories] + (if cats.Ok? then [GetAllSubcategories] else [])
  }

  /** The state of the subcategory admin view. */
  class SubcategoryPanel {
    var categories: seq<Category>
    var subcategories: seq<Subcategory>
    var filtered: seq<Subcategory>
    var search: string
    var filterCat: Option<int>
    var formOpen: bool
    var formData: SubcategoryForm
    var editingId: Option<int>
    var loading: bool

    constructor ()
      ensures categories == [] && subcategories == [] && filtered == [] && search == "" && filterCat == None
      ensures !formOpen && formData == BlankForm && editingId == None && !loading
    {
      categories, subcategories, filtered, search, filterCat := [], [], [], "", None;
      formOpen, formData, editingId, loading := false, BlankForm, None, false;
    }

    /** Mount effect and reload: categories, then subcategories; both lists
        are replaced only when both arrive. */
    method LoadData(cats: Reply<seq<Category>>, subs: Reply<seq<Subcategory>>) returns (calls: seq<Call>)
      modifies this`categories, this`subcategories
      ensures calls == LoadCalls(cats)
      ensures cats.Ok? && subs.Ok? ==> categories == cats.value && subcategories == subs.value
      ensures !(cats.Ok? && subs.Ok?) ==> categories == old(categories) && subcategories == old(subcategories)
    {
      calls := [GetAllCategories];
      if cats.Ok? {
        calls := calls + [GetAllSubcategories];
        if subs.Ok? {
          categories := cats.value;
          subcategories := subs.value;
        }
      }
    }

    /** Filter effect, run after the search, the category filter or the list changed. */
    method FilterEffect()
      modifies this`filtered
      ensures filtered == FilterSubcategories(subcategories, filterCat, search)
    {
      var list, cat, term := subcategories, filterCat, search;
      if cat.Some? {
        list := Filter(list, (s: Subcategory) => InCategory(s, cat));
      }
      if term != [] {
        list := Filter(list, (s: Subcategory) => NameMatches(s, term));
      }
      filtered := list;
    }

    method SetSearch(t: string)
      modifies this`search
      ensures search == t
    {
      search := t;
    }

    method SetFilterCat(c: Option<int>)
      modifies this`filterCat
      ensures filterCat == c
    {
      filterCat := c;
    }

    /** The Reset button clears both the search and the category filter. */
    method Reset()
      modifies this`search, this`filterCat
      ensures search == "" && filterCat == None
    {
      search := "";
      filterCat := None;
    }

    /** Opens the form blank for a new subcategory, or filled from `sub` for editing. */
    method OpenForm(sub: Option<Subcategory>)
      modifies this`editingId, this`formData, this`formOpen
      ensures sub.Some? ==> editingId == Some(sub.value.id)
                            && formData == SubcategoryForm(sub.value.name_az, sub.value.name_en, sub.value.name_ru,
                                                           Some(sub.value.categoryId))
      ensures sub.None? ==> editingId == None && formData == BlankForm
      ensures formOpen
    {
      if sub.Some? {
        editingId := Some(sub.value.id);
        formData := SubcategoryForm(sub.value.name_az, sub.value.name_en, sub.value.name_ru, Some(sub.value.categoryId));
      } else {
        editingId := None;
        formData := BlankForm;
      }
      formOpen := true;
    }

    /** Closing the form also forgets which subcategory was being edited. */
    method CloseForm()
      modifies this`formOpen, this`editingId
      ensures !formOpen && editingId == None
    {
      formOpen := false;
      editingId := None;
    }

    /** Submits the form. Without a chosen category nothing is sent and
        nothing changes. Otherwise updates when an edit id is set and creates
        otherwise; after a successful save the form closes, the edit id is
        cleared and the lists are reloaded (a failed reload is swallowed);
        after a failure the form stays open. */
    method SubmitForm(saved: bool, cats: Reply<seq<Category>>, subs: Reply<seq<Subcategory>>)
      returns (calls: seq<Call>)
      modifies this`loading, this`formOpen, this`editingId, this`categories, this`subcategories
      ensures formData.categoryId.None? ==>
                calls == [] && loading == old(loading) && formOpen == old(formOpen) && editingId == old(editingId)
                && categories == old(categories) && subcategories == old(subcategories)
      ensures formData.categoryId.Some? ==>
                var payload := PayloadOf(formData);
                var save := if IsSet(old(editingId)) then UpdateSubcategory(old(editingId).value, payload)
                            else CreateSubcategory(payload);
                && !loading
                && (!saved ==> calls == [save] && formOpen == old(formOpen) && editingId == old(editingId)
                               && categories == old(categories) && subcategories == old(subcategories))
                && (saved ==> calls == [save] + LoadCalls(cats) && !formOpen && editingId == None
                              && (cats.Ok? && subs.Ok? ==> categories == cats.value && subcategories == subs.value)
                              && (!(cats.Ok? && subs.Ok?) ==> categories == old(categories) && subcategories == old(subcategories)))
    {
      if formData.categoryId.None? {
        return [];
      }
      var payload := SubcategoryPayload(formData.name_az, formData.name_en, formData.name_ru, formData.categoryId.value);
      loading := true;
      if IsSet(editingId) {
        calls := [UpdateSubcategory(editingId.value, payload)];
      } else {
        calls := [CreateSubcategory(payload)];
      }
      if saved {
        formOpen := false;
        editingId := None;
        var reloadCalls := LoadData(cats, subs);
        calls := calls + reloadCalls;
      }
      loading := false;
    }

    /** Deletes subcategory `id` only when the confirmation is accepted, then
        reloads after a successful delete. Declining changes nothing. */
    method HandleDelete(id: int, confirmed: bool, deleted: bool, cats: Reply<seq<Category>>, subs: Reply<seq<Subcategory>>)
      returns (calls: seq<Call>)
      modifies this`categories, this`subcategories
      ensures !confirmed ==> calls == [] && categories == old(categories) && subcategories == old(subcategories)
      ensures confirmed ==> calls == [DeleteSubcategory(id)] + (if deleted then LoadCalls(cats) else [])
      ensures confirmed && deleted && cats.Ok? && subs.Ok? ==> categories == cats.value && subcategories == subs.value
      ensures !(confirmed && deleted && cats.Ok? && subs.Ok?) ==>
                categories == old(categories) && subcategories == old(subcategories)
    {
      if !confirmed {
        return [];
      }
      calls := [DeleteSubcategory(id)];
      if deleted {
        var reloadCalls := LoadData(cats, subs);
        calls := calls + reloadCalls;
      }
    }
  }
}

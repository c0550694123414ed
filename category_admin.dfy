/** The category admin view: a client-side name search over the full category
    list, a create/edit form with an optional image upload, and a delete
    confirmation. */
module CategoryAdmin {
  import opened Common
  import opened Text
  import opened Catalog

  /** The categories whose lower-cased az, en or ru name contains the
      lower-cased search term; the term is not trimmed. */
  function SearchCategories(list: seq<Category>, searchTerm: string): (r: seq<Category>)
    ensures forall c :: c in r <==> c in list && AnyNameIncludes(c.name_az, c.name_en, c.name_ru, Lower(searchTerm))
  {
    Filter(list, (c: Category) => AnyNameIncludes(c.name_az, c.name_en, c.name_ru, Lower(searchTerm)))
  }

  /** The search result is an order-preserving subsequence of the list that
      keeps every copy of a matching category. */
  lemma SearchCategoriesInOrder(list: seq<Category>, searchTerm: string)
    ensures var r := SearchCategories(list, searchTerm);
            && Subsequence(r, list)
            && forall c :: multiset(r)[c] == if AnyNameIncludes(c.name_az, c.name_en, c.name_ru, Lower(searchTerm))
                                             then multiset(list)[c] else 0
  {
    var keep := (c: Category) => AnyNameIncludes(c.name_az, c.name_en, c.name_ru, Lower(searchTerm));
    FilterIsSubsequence(list, keep);
    FilterCounts(list, keep);
  }

  /** An empty search term shows the whole list. */
  lemma EmptyTermKeepsAll(list: seq<Category>)
    ensures SearchCategories(list, "") == list
  {
    var keep := (c: Category) => AnyNameIncludes(c.name_az, c.name_en, c.name_ru, Lower(""));
    forall c | c in list ensures keep(c) {
      IncludesEmpty(Lower(c.name_az));
    }
    FilterAll(list, keep);
  }

  /** Because the term is not trimmed, a padded term can miss a category that
      the bare term finds. */
  lemma PaddedTermMisses()
    ensures var c := Category(1, "a", "a", "a", []);
            SearchCategories([c], "a") == [c] && SearchCategories([c], " a") == []
  {
    var c := Category(1, "a", "a", "a", []);
    assert Lower("a") == "a";
    assert Lower(" a") == " a";
    assert !(" a" <= "a") && !(" a" <= "");
    assert !Includes("", " a");
    assert !Includes("a", " a");
    assert Includes("a", "a");
  }

  datatype CategoryForm = CategoryForm(name_az: string, name_en: string, name_ru: string, img: seq<string>)

  /** The form of a new category: empty names and one empty image slot. */
  const BlankForm: CategoryForm := CategoryForm("", "", "", [""])

  /** A category as fetched by id; any field may be missing. */
  datatype FetchedCategory = FetchedCategory(
    name_az: Option<string>, name_en: Option<string>, name_ru: Option<string>,
    img: Option<seq<string>>)

  function NameOr(name: Option<string>): string {
    match name
    case None => ""
    case Some(s) => s
  }

  /** The edit form filled from a fetched category: a missing name becomes
      empty and a missing image list becomes one empty slot. */
  function FormFromFetched(d: FetchedCategory): (f: CategoryForm)
    ensures d.name_az.Some? ==> f.name_az == d.name_az.value
    ensures d.name_az.None? ==> f.name_az == ""
    ensures d.name_en.Some? ==> f.name_en == d.name_en.value
    ensures d.name_en.None? ==> f.name_en == ""
    ensures d.name_ru.Some? ==> f.name_ru == d.name_ru.value
    ensures d.name_ru.None? ==> f.name_ru == ""
    ensures d.img.Some? ==> f.img == d.img.value
    ensures d.img.None? ==> f.img == [""]
  {
    CategoryForm(NameOr(d.name_az), NameOr(d.name_en), NameOr(d.name_ru),
                 match d.img case None => [""] case Some(i) => i)
  }

  /** The three name inputs are `required`: the browser does not fire the
      submit handler while one is empty. */
  predicate Submittable(f: CategoryForm) {
    f.name_az != "" && f.name_en != "" && f.name_ru != ""
  }

  datatype CategoryPayload = CategoryPayload(name_az: string, name_en: string, name_ru: string, img: seq<string>)

  /** The payload sent on submit: the three names from the form, and either
      the form's image list or the absolute URL of a freshly uploaded file. */
  function PayloadOf(f: CategoryForm, uploaded: Option<string>): (pl: CategoryPayload)
    ensures pl.name_az == f.name_az && pl.name_en == f.name_en && pl.name_ru == f.name_ru
    ensures uploaded.None? ==> pl.img == f.img
    ensures uploaded.Some? ==> |pl.img| == 1 && Origin <= pl.img[0] && pl.img[0][|Origin|..] == uploaded.value
  {
    CategoryPayload(f.name_az, f.name_en, f.name_ru,
                    match uploaded case None => f.img case Some(path) => [AbsoluteUrl(path)])
  }

  /** The remote calls the view issues, in order. */
  datatype Call =
    | GetAllCategories
    | GetCategoryById(id: int)
    | UploadImage
    | CreateCategory(payload: CategoryPayload)
    | EditCategory(id: int, payload: CategoryPayload)
    | DeleteCategory(deleteId: Option<int>)

  /** The state of the category admin view. */
  class CategoryPanel {
    var categoryList: seq<Category>
    var displayed: seq<Category>
    var formOpen: bool
    var formData: CategoryForm
    var editId: Option<int>
    var loading: bool
    var deletePopup: bool
    var deleteId: Option<int>
    var file: bool
    var searchTerm: string

    constructor ()
      ensures categoryList == [] && displayed == [] && !formOpen && formData == BlankForm
      ensures editId == None && !loading && !deletePopup && deleteId == None && !file && searchTerm == ""
    {
      categoryList, displayed, formOpen, formData := [], [], false, BlankForm;
      editId, loading, deletePopup, deleteId, file, searchTerm := None, false, false, None, false, "";
    }

    /** Mount effect and reload: the list is replaced only when it arrives. */
    method LoadCategories(res: Reply<seq<Category>>) returns (calls: seq<Call>)
      modifies this`categoryList
      ensures calls == [GetAllCategories]
      ensures categoryList == if res.Ok? then res.value else old(categoryList)
    {
      calls := [GetAllCategories];
      if res.Ok? {
        categoryList := res.value;
      }
    }

    /** Search effect, run after the term or the list changed. */
    method SearchEffect()
      modifies this`displayed
      ensures displayed == SearchCategories(categoryList, searchTerm)
    {
      displayed := SearchCategories(categoryList, searchTerm);
    }

    method SetSearchTerm(t: string)
      modifies this`searchTerm
      ensures searchTerm == t
    {
      searchTerm := t;
    }

    method ResetSearch()
      modifies this`searchTerm
      ensures searchTerm == ""
    {
      searchTerm := "";
    }

    /** Opens the form blank for a new category, or for editing category `id`
        filled from a fetch of it; a failed fetch leaves the previous form
        contents in place. The form opens either way. */
    method OpenForm(id: Option<int>, fetched: Reply<FetchedCategory>) returns (calls: seq<Call>)
      modifies this`editId, this`file, this`formData, this`formOpen
      ensures editId == id && !file && formOpen
      ensures !IsSet(id) ==> calls == [] && formData == BlankForm
      ensures IsSet(id) ==> calls == [GetCategoryById(id.value)]
                            && formData == if fetched.Ok? then FormFromFetched(fetched.value) else old(formData)
    {
      editId := id;
      file := false;
      if IsSet(id) {
        calls := [GetCategoryById(id.value)];
        if fetched.Ok? {
          formData := FormFromFetched(fetched.value);
        }
      } else {
        calls := [];
        formData := BlankForm;
      }
      formOpen := true;
    }

    method CloseForm()
      modifies this`formOpen
      ensures !formOpen
    {
      formOpen := false;
    }

    /** The image file input: a file was picked, or the picker was dismissed. */
    method ChooseFile(chosen: bool)
      modifies this`file
      ensures file == chosen
    {
      file := chosen;
    }

    /** Submits the form: uploads a chosen file first, then updates when an
        edit id is set and creates otherwise. After a successful save the list
        is reloaded (a failed reload is reported and swallowed) and the form
        closes; after a failure the form stays open. */
    method SubmitForm(upload: Reply<string>, saved: bool, reload: Reply<seq<Category>>) returns (calls: seq<Call>)
      modifies this`loading, this`formOpen, this`categoryList
      ensures !Submittable(formData) ==>
                calls == [] && loading == old(loading) && formOpen == old(formOpen) && categoryList == old(categoryList)
      ensures Submittable(formData) && file && upload.Failed? ==>
                calls == [UploadImage] && !loading && formOpen == old(formOpen) && categoryList == old(categoryList)
      ensures Submittable(formData) && (!file || upload.Ok?) ==>
                var payload := PayloadOf(formData, if file then Some(upload.value) else None);
                var save := if IsSet(editId) then EditCategory(editId.value, payload) else CreateCategory(payload);
                var sent := (if file then [UploadImage] else []) + [save];
                && !loading
                && (!saved ==> calls == sent && formOpen == old(formOpen) && categoryList == old(categoryList))
                && (saved ==> calls == sent + [GetAllCategories] && !formOpen
                              && categoryList == if reload.Ok? then reload.value else old(categoryList))
    {
      if !Submittable(formData) {
        return [];
      }
      loading := true;
      calls := [];
      var imgArr := formData.img;
      if file {
        calls := calls + [UploadImage];
        if upload.Failed? {
          loading := false;
          return;
        }
        imgArr := [AbsoluteUrl(upload.value)];
      }
      var payload := CategoryPayload(formData.name_az, formData.name_en, formData.name_ru, imgArr);
      if IsSet(editId) {
        calls := calls + [EditCategory(editId.value, payload)];
      } else {
        calls := calls + [CreateCategory(payload)];
      }
      if saved {
        calls := calls + [GetAllCategories];
        if reload.Ok? {
          categoryList := reload.value;
        }
        formOpen := false;
      }
      loading := false;
    }

    /** A row's delete icon asks for confirmation of deleting that category. */
    method OpenDelete(id: int)
      modifies this`deleteId, this`deletePopup
      ensures deleteId == Some(id) && deletePopup
    {
      deleteId := Some(id);
      deletePopup := true;
    }

    method CancelDelete()
      modifies this`deletePopup
      ensures !deletePopup
    {
      deletePopup := false;
    }

    /** Confirmed delete: the list is reloaded only after a successful delete,
        but the popup closes whether or not the delete succeeded. */
    method ConfirmDelete(deleted: bool, reload: Reply<seq<Category>>) returns (calls: seq<Call>)
      modifies this`loading, this`deletePopup, this`categoryList
      ensures calls == [DeleteCategory(deleteId)] + (if deleted then [GetAllCategories] else [])
      ensures categoryList == if deleted && reload.Ok? then reload.value else old(categoryList)
      ensures !deletePopup && !loading
    {
      loading := true;
      calls := [DeleteCategory(deleteId)];
      if deleted {
        calls := calls + [GetAllCategories];
        if reload.Ok? {
          categoryList := reload.value;
        }
      }
      deletePopup := false;
      loading := false;
    }
  }
}

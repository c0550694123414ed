# Catalog admin console: filter and mutation state, in Dafny

This project models the state logic of the three admin views of a
three-tier catalog (categories, subcategories, products), with the rendering
and the network calls stripped away.

- **Product view** (`AddProduct.jsx`). The subcategory options come from the
  selected category. Changing the category filter clears the subcategory
  filter and goes back to page 1. Prev/Next paging is clamped. The fetched
  page is narrowed on the client by category, subcategory, a trimmed
  case-insensitive name search and optional price bounds. Create, update
  and the status toggle each send a full payload, because the remote API
  replaces whole entities. Delete sends only the product id.
- **Category view** (`CategoryAdmin.jsx`). An untrimmed case-insensitive
  search over the full list. A create/edit form whose image is either passed
  through or replaced by one uploaded URL. A delete confirmation.
- **Subcategory view** (`SubcategoryAdmin.jsx`). A category filter plus a
  name search. A form that sends nothing until a category is chosen. A
  delete that asks for confirmation first.

## How the model is built

- Pure logic is written as functions: the filters, option lists, payload
  builders and paging steps. Lemmas state what they promise.
  - `common.dfy` has `Filter`, `Find` and an order-preserving `Subsequence`
    relation.
  - `text.dfy` has `toLowerCase` (ASCII), `trim`, `includes`, `split` and
    `join`.
  - `catalog.dfy` has the entities.
  - `product_view.dfy` has the product filters.
- Each view's `useState` fields become the fields of a class:
  `AddProduct.ProductPanel`, `CategoryAdmin.CategoryPanel` and
  `SubcategoryAdmin.SubcategoryPanel`.
  - Each handler is a method. Its `modifies` clause names exactly the fields
    the handler sets, so every other field is proved unchanged.
  - Its `ensures` clauses give the new value of each of those fields.
- Remote calls are not executed.
  - A handler takes the server's replies as parameters: `Reply<T>` is `Ok`
    with data, or `Failed`.
  - It returns the list of calls it issued, in order. So "a validation
    failure sends nothing" reads `calls == []`, and "delete is sent only
    after confirmation" reads as the contents of `calls`.
- Each handler runs atomically.
  - A React effect is a separate method (`LoadData`, `SyncFormSubcategories`,
    `SearchEffect`, `FilterEffect`). Its contract gives the state it
    leaves.
  - The model has no scheduler that decides when React runs an effect.
  - One exception is the edit click. `AddProduct.ProductPanel.OpenEditForm`
    runs `OpenPopup` and then the form effect, exactly when React does:
    when the form's category changed.
- The HTML `required` attributes of the product and category forms stop the
  browser from calling the submit handler while a required field is empty.
  This is modelled as the `Submittable` gate in front of `SubmitForm`.
  - A controlled select whose value is not among its rendered options shows
    its empty placeholder, so the product gate also takes the options on
    screen: `categories` for the category select and the shared
    `filteredSubcats` for the subcategory select.
- JavaScript truthiness of an id (`if (editId)`) is `Common.IsSet`: `null`
  and `0` both take the create branch.

Behaviour worth noting, modelled as the code has it:

- The category view closes its form after any successful save, even when the
  reload that follows fails. `loadCategories` catches its own errors, so
  `setFormOpen(false)` still runs.
- The category view closes its delete popup whether or not the delete
  succeeded.
- Changing the product category filter always clears the subcategory filter.
  No still-valid subcategory is kept.
- The form effect clears the chosen subcategory whenever the form's category
  changes. This includes right after an edit form is opened on a product from
  another category than the form held before. So it happens on the first edit
  after mounting, unless a category was chosen in an earlier form. The
  `required` subcategory select then blocks an untouched submit until a
  subcategory is chosen again (`OpenEditForm`).
- The filter bar and the form share `filteredSubcats`. When the form effect
  does not run on an edit click, the list effect may already have replaced the
  options with the filter bar's. The untouched submit then goes through only
  if the product's subcategory is among those options (`OpenEditForm`).
- The subcategory filter select is disabled while no category filter is set.
  So a subcategory filter is never set without a category filter
  (`FiltersConsistent`).
- The reloads after save, delete and toggle replace `products` but keep
  `totalPages`.
- `page` is not always within `[1, totalPages]`. When the server reports 0
  pages, the Next button is enabled on page 1 (`1 !== 0`) and moves to
  page 0 (`NextWithNoPages`). The bound is preserved only when it held
  before.

## Model

| member | source | states |
|---|---|---|
| Common.Filter | src/admin/components/AddProduct.jsx:243-259 | `filter` keeps exactly the elements that satisfy the predicate and never grows the list |
| Common.FilterIsSubsequence | src/admin/components/AddProduct.jsx:243-259 | a filtered list is an order-preserving subsequence of its input |
| Common.FilterCounts | src/admin/components/AddProduct.jsx:243-259 | filtering keeps every copy of a satisfying element and no copy of the others |
| Common.FilterFuse | src/admin/components/AddProduct.jsx:243-259 | two chained filters equal one filter by the conjunction of their predicates |
| Common.FilterAll | src/admin/components/AddProduct.jsx:243-259 | a filter whose predicate holds for every element returns the list unchanged |
| Common.FindIndex | src/admin/components/AddProduct.jsx:214 | `find` picks the first index whose element satisfies the predicate; none when no element does |
| Common.Find | src/admin/components/SubcategoryAdmin.jsx:162 | `find` returns the first element of the list that satisfies the predicate (none before it does), and `undefined` exactly when no element does |
| Text.AbsoluteUrl | src/admin/components/AddProduct.jsx:167 | the stored image URL is the fixed origin followed by the uploaded relative path |
| Text.Lower | src/admin/components/AddProduct.jsx:248-252 | lower-casing keeps the length, maps each character and leaves no upper-case ASCII letter |
| Text.TrimStart | src/admin/components/AddProduct.jsx:248 | drops exactly the leading white space: the result is a suffix that starts with a non-space |
| Text.TrimEnd | src/admin/components/AddProduct.jsx:248 | drops exactly the trailing white space: the result is a prefix that ends with a non-space |
| Text.Trim | src/admin/components/AddProduct.jsx:248 | the trimmed query is the infix of the input left after removing only white space at both ends, and it starts and ends with a non-space |
| Text.TrimTrimmed | src/admin/components/AddProduct.jsx:173 | trimming a string with no white space at either end leaves it unchanged |
| Text.TrimmedKeepsOut | src/admin/components/AddProduct.jsx:173 | a character absent from a string is absent from its trimmed form |
| Text.Includes | src/admin/components/AddProduct.jsx:250-252 | `includes`: the term is a prefix of the string or of one of its suffixes; `IncludesIffOccurs` ties it to occurrence positions |
| Text.IncludesIffOccurs | src/admin/components/AddProduct.jsx:250-252 | `includes` holds exactly when the term occurs at some position of the string |
| Text.IncludesEmpty | src/admin/components/CategoryAdmin.jsx:36-42 | every string includes the empty term |
| Text.Split | src/admin/components/AddProduct.jsx:173 | `split(",")` yields at least one piece and no piece contains a comma |
| Text.Join | src/admin/components/AddProduct.jsx:130-131 | `join(",")`: the pieces with one comma between neighbours, `""` for none; `SplitJoin` and `JoinSplit` tie it to `Split` |
| Text.SplitJoin | src/admin/components/AddProduct.jsx:173 | splitting the comma-joined sizes of the edit form gives the sizes back; an empty list comes back as one empty piece |
| Text.JoinSplit | src/admin/components/AddProduct.jsx:131 | joining the pieces of a split gives the original string back |
| Catalog.AnyNameIncludesIff | src/admin/components/CategoryAdmin.jsx:38-42 | the three-name search matches exactly when the term occurs in the lower-cased az, en or ru name |
| ProductView.SubcategoryOptions | src/admin/components/AddProduct.jsx:72-76 | the options are exactly the subcategories whose `categoryId` is the selected category, each with all its copies, and none without a selection |
| ProductView.SubcategoryOptionsInOrder | src/admin/components/AddProduct.jsx:74 | the options keep the order of the full subcategory list |
| ProductView.MatchesSearch | src/admin/components/AddProduct.jsx:246-253 | an empty search keeps every product; otherwise the trimmed, lower-cased query must occur at some position of a lower-cased az, en or ru name |
| ProductView.InPriceRange | src/admin/components/AddProduct.jsx:255-259 | the two early returns keep a product exactly when it is at least a set lower bound and at most a set upper bound |
| ProductView.Displayed | src/admin/components/AddProduct.jsx:243-259 | `displayed` never grows the page and holds exactly the products of the page that pass the category, subcategory, search and price filters |
| ProductView.DisplayedIsOneFilter | src/admin/components/AddProduct.jsx:243-259 | the chain of category, subcategory, search and price filters is one filter by their conjunction |
| ProductView.DisplayedSpec | src/admin/components/AddProduct.jsx:243-259 | `displayed` is an order-preserving subsequence of the page. It holds a product, with all its copies, iff the product passes the set category, the set subcategory, the search and the price bounds |
| ProductView.NoFiltersDisplayAll | src/admin/components/AddProduct.jsx:244-247 | with no filter set and an empty search the whole page is displayed |
| ProductView.BlankSearchKeepsAll | src/admin/components/AddProduct.jsx:247-248 | a search of only white space trims to the empty query and keeps every product |
| ProductView.SearchIgnoresQueryCase | src/admin/components/AddProduct.jsx:248-252 | the search result does not depend on the case of the query's letters |
| ProductView.LowerTrimCommute | src/admin/components/AddProduct.jsx:248 | trimming and lower-casing the query commute |
| ProductView.CrossedBoundsKeepNothing | src/admin/components/AddProduct.jsx:255-259 | a lower bound above the upper bound excludes every product; the order of the bounds is not checked |
| ProductView.PriceRangeExample | src/admin/components/AddProduct.jsx:255-259 | prices 5, 12 and 20 with bounds 10 to 15 keep only the product priced 12 |
| AddProduct.ImageArray | src/admin/components/AddProduct.jsx:164-168 | the image array is the form's URLs unless a file was uploaded, and then exactly one absolute URL ending in the uploaded path |
| AddProduct.SizesOf | src/admin/components/AddProduct.jsx:173 | one size per comma-separated field, in order; each is that field with only its surrounding white space removed, starts and ends with a non-space and holds no comma |
| AddProduct.TogglePayload | src/admin/components/AddProduct.jsx:215-230 | the toggle payload, stored and read back, equals the product in memory except that `status` is `(mode == activate)` and `ingridients` is `['kofe']` |
| AddProduct.ToggleFlipsStatus | src/admin/components/AddProduct.jsx:314 | the mode a row offers is the opposite of its status, so the toggle stores the negated status |
| AddProduct.ModeFor | src/admin/components/AddProduct.jsx:314 | the status button offers activation exactly when the product is inactive |
| AddProduct.FormOf | src/admin/components/AddProduct.jsx:120-135 | the edit form is filled from the product with lists comma-joined; it passes the `required` gate exactly when the product has all three names and its category and subcategory are among the options on screen |
| AddProduct.Submittable | src/admin/components/AddProduct.jsx:360-380 | the `required` inputs as the browser checks them: the three names and the price are filled, and the category and subcategory are among the options the two selects render |
| AddProduct.SubmitPayload | src/admin/components/AddProduct.jsx:169-179 | the payload carries the form's names, descriptions, status and stock flag, the numeric ids and price the form holds, `['kofe']`, the trimmed sizes, the given image array, and the form's `imgUrls` from the spread |
| AddProduct.EditRoundTrip | src/admin/components/AddProduct.jsx:117-179 | submitting the form an edit opens, without a new image, stores the product again: only `ingridients` becomes `['kofe']`, and an empty size list becomes one empty size. The browser lets it through when the product has its names and its category and subcategory are among the options on screen. That holds only if the form effect left the subcategory in place and `filteredSubcats` lists it (see `OpenEditForm`) |
| AddProduct.FindProduct | src/admin/components/AddProduct.jsx:214 | the product found is the first in memory with the toggle id; none is found exactly when no product has that id |
| AddProduct.PagingStaysInBounds | src/admin/components/AddProduct.jsx:391-405 | Prev is `max(page-1,1)` and Next is `min(page+1,totalPages)`. Both keep a page in `[1, totalPages]` there. Prev on page 1 and Next on the last page are no-ops |
| AddProduct.PrevPageOf | src/admin/components/AddProduct.jsx:392 | Prev gives `Math.max(page - 1, 1)`: the larger of the two |
| AddProduct.NextPageOf | src/admin/components/AddProduct.jsx:400 | Next gives `Math.min(page + 1, totalPages)`: the smaller of the two |
| AddProduct.NextWithNoPages | src/admin/components/AddProduct.jsx:400-401 | with 0 reported pages, Next from page 1 gives page 0 |
| AddProduct.ProductPanel.constructor | src/admin/components/AddProduct.jsx:16-51 | the initial state: empty lists, no filters, page 1 of 1, no popup, the blank form |
| AddProduct.ProductPanel.LoadFilters | src/admin/components/AddProduct.jsx:53-67 | both option lists are requested and stored only if both arrive |
| AddProduct.ProductPanel.LoadData | src/admin/components/AddProduct.jsx:69-88 | the filter options follow the filter category. One page is requested under page, category and subcategory. On success products and page count are replaced, otherwise kept |
| AddProduct.ProductPanel.SyncFormSubcategories | src/admin/components/AddProduct.jsx:90-99 | the options follow the form's category and the form's subcategory is cleared, with nothing else in the form changed |
| AddProduct.ProductPanel.ChangeFormCategory | src/admin/components/AddProduct.jsx:101-104 | choosing a form category changes only the form's category |
| AddProduct.ProductPanel.ChooseImage | src/admin/components/AddProduct.jsx:367 | the file input records whether a file is chosen |
| AddProduct.ProductPanel.HandleFilterCat | src/admin/components/AddProduct.jsx:106-110 | changing the category filter sets it, clears the subcategory filter and goes to page 1, so no subcategory filter stands without a category filter |
| AddProduct.ProductPanel.HandleFilterSubcat | src/admin/components/AddProduct.jsx:112-115 | with a category filter set, the subcategory filter is set and the page goes to 1; while none is set the select is disabled (line 270) and nothing changes; a subcategory filter never stands alone |
| AddProduct.ProductPanel.SetSearch | src/admin/components/AddProduct.jsx:274 | typing a search changes only the search; nothing is fetched |
| AddProduct.ProductPanel.SetMinPrice | src/admin/components/AddProduct.jsx:275 | setting the lower bound changes only that bound |
| AddProduct.ProductPanel.SetMaxPrice | src/admin/components/AddProduct.jsx:276 | setting the upper bound changes only that bound |
| AddProduct.ProductPanel.PrevPage | src/admin/components/AddProduct.jsx:391-397 | Prev gives `max(page-1,1)`, is a no-op on page 1 and keeps `1 <= page <= totalPages` |
| AddProduct.ProductPanel.NextPage | src/admin/components/AddProduct.jsx:399-405 | Next gives `min(page+1,totalPages)`, is a no-op on the last page and keeps `1 <= page <= totalPages` |
| AddProduct.ProductPanel.Reset | src/admin/components/AddProduct.jsx:277 | Reset clears both id filters, the search and both price bounds, and goes to page 1; no subcategory filter is left without a category filter |
| AddProduct.ProductPanel.OpenPopup | src/admin/components/AddProduct.jsx:117-158 | the form opens blank with no edit id, or filled from the product with its id, and with no file chosen |
| AddProduct.ProductPanel.OpenEditForm | src/admin/components/AddProduct.jsx:90-158 | the edit click followed by the form effect, which React runs only when the form's category changed. Then the subcategory is cleared and the form cannot be submitted untouched. Otherwise the form is the product's, and it can be submitted iff its names are set and its category and subcategory are among the options still on screen |
| AddProduct.ProductPanel.ClosePopup | src/admin/components/AddProduct.jsx:382 | the close button closes the form |
| AddProduct.ProductPanel.SubmitForm | src/admin/components/AddProduct.jsx:160-194 | nothing is sent while a required field is empty or a select value is not among its rendered options. The image is uploaded first if one is chosen. An edit is sent iff the edit id is set, else a create, with the full payload. After a successful save the form closes and the page is reloaded under unchanged filters; `totalPages` is kept. After a failure the form stays open |
| AddProduct.ProductPanel.OpenDelete | src/admin/components/AddProduct.jsx:318 | the row's delete button records the product id and opens the confirmation |
| AddProduct.ProductPanel.CancelDelete | src/admin/components/AddProduct.jsx:332 | declining closes the delete confirmation |
| AddProduct.ProductPanel.HandleDelete | src/admin/components/AddProduct.jsx:196-209 | the delete is sent. On success the popup closes and the page is reloaded with `totalPages` kept. On failure the popup stays open |
| AddProduct.ProductPanel.OpenToggle | src/admin/components/AddProduct.jsx:312-316 | the row's status button records the id and the opposite mode and opens the confirmation |
| AddProduct.ProductPanel.CancelToggle | src/admin/components/AddProduct.jsx:348 | declining closes the toggle confirmation |
| AddProduct.ProductPanel.HandleToggleStatus | src/admin/components/AddProduct.jsx:211-241 | a product missing from memory sends nothing and leaves the popup open. Otherwise the update carries the rebuilt payload. On success the popup closes and the page is reloaded |
| CategoryAdmin.SearchCategories | src/admin/components/CategoryAdmin.jsx:35-44 | a category is displayed iff its lower-cased az, en or ru name contains the lower-cased term |
| CategoryAdmin.SearchCategoriesInOrder | src/admin/components/CategoryAdmin.jsx:37-43 | the displayed list is an order-preserving subsequence that keeps all copies of a matching category |
| CategoryAdmin.EmptyTermKeepsAll | src/admin/components/CategoryAdmin.jsx:36-42 | an empty term displays the whole list |
| CategoryAdmin.PaddedTermMisses | src/admin/components/CategoryAdmin.jsx:36 | the term is not trimmed: ` a` misses a category named `a` that `a` finds |
| CategoryAdmin.FormFromFetched | src/admin/components/CategoryAdmin.jsx:61-66 | the edit form takes each fetched name (az, en, ru) or `''`, and the fetched image list or `['']` |
| CategoryAdmin.Submittable | src/admin/components/CategoryAdmin.jsx:222-242 | the `required` inputs: the submit handler runs only when all three names are filled |
| CategoryAdmin.PayloadOf | src/admin/components/CategoryAdmin.jsx:80-90 | the payload holds exactly the three form names and the form's images. With an upload it holds one absolute URL ending in the uploaded path instead |
| CategoryAdmin.CategoryPanel.constructor | src/admin/components/CategoryAdmin.jsx:15-29 | the initial state: empty lists, closed form and popup, blank form, empty term |
| CategoryAdmin.CategoryPanel.LoadCategories | src/admin/components/CategoryAdmin.jsx:46-53 | the list is requested and replaced only when it arrives |
| CategoryAdmin.CategoryPanel.SearchEffect | src/admin/components/CategoryAdmin.jsx:35-44 | the displayed list is the search over the current list and term |
| CategoryAdmin.CategoryPanel.SetSearchTerm | src/admin/components/CategoryAdmin.jsx:136 | typing changes only the term |
| CategoryAdmin.CategoryPanel.ResetSearch | src/admin/components/CategoryAdmin.jsx:121-123 | reset empties the term |
| CategoryAdmin.CategoryPanel.OpenForm | src/admin/components/CategoryAdmin.jsx:55-74 | create opens a blank form with no edit id and no file. Edit fetches the category and fills the form from it, keeping the old contents if the fetch fails. The form opens either way |
| CategoryAdmin.CategoryPanel.CloseForm | src/admin/components/CategoryAdmin.jsx:264 | the close button closes the form |
| CategoryAdmin.CategoryPanel.ChooseFile | src/admin/components/CategoryAdmin.jsx:250 | the file input records whether a file is chosen |
| CategoryAdmin.CategoryPanel.SubmitForm | src/admin/components/CategoryAdmin.jsx:76-105 | nothing is sent while a name is empty. The upload comes first. An edit is sent iff the edit id is set, else a create. The form closes after a successful save, with the list reloaded, and stays open after a failure |
| CategoryAdmin.CategoryPanel.OpenDelete | src/admin/components/CategoryAdmin.jsx:187-190 | the delete icon records the id and opens the confirmation |
| CategoryAdmin.CategoryPanel.CancelDelete | src/admin/components/CategoryAdmin.jsx:290 | declining closes the confirmation |
| CategoryAdmin.CategoryPanel.ConfirmDelete | src/admin/components/CategoryAdmin.jsx:107-119 | the delete is sent. The list is reloaded only on success. The popup closes either way |
| SubcategoryAdmin.FilterSubcategoriesIsOneFilter | src/admin/components/SubcategoryAdmin.jsx:28-40 | the category step then the search step equal one filter by "in the category and matching the search" |
| SubcategoryAdmin.FilterSubcategories | src/admin/components/SubcategoryAdmin.jsx:28-40 | the filtered list never grows and holds exactly the subcategories in the set category whose names match a non-empty search |
| SubcategoryAdmin.FilterSubcategoriesSpec | src/admin/components/SubcategoryAdmin.jsx:28-40 | `filtered` is an order-preserving subsequence holding, with all copies, exactly the subcategories of the set category whose names match a non-empty search |
| SubcategoryAdmin.CategoryLabel | src/admin/components/SubcategoryAdmin.jsx:162-168 | the label is the az name of the first category with the subcategory's id when that name is non-empty, and the raw `categoryId` otherwise or when none matches |
| SubcategoryAdmin.PayloadOf | src/admin/components/SubcategoryAdmin.jsx:84-89 | the payload holds exactly the form's three names and its numeric category id |
| SubcategoryAdmin.LoadCalls | src/admin/components/SubcategoryAdmin.jsx:42-51 | a reload asks for categories first, and then for subcategories exactly when categories arrived |
| SubcategoryAdmin.SubcategoryPanel.constructor | src/admin/components/SubcategoryAdmin.jsx:14-22 | the initial state: empty lists and filters, closed blank form, no edit id |
| SubcategoryAdmin.SubcategoryPanel.LoadData | src/admin/components/SubcategoryAdmin.jsx:42-51 | both lists are replaced only when both arrive |
| SubcategoryAdmin.SubcategoryPanel.FilterEffect | src/admin/components/SubcategoryAdmin.jsx:28-40 | the shown list is the category and search filter of the current list |
| SubcategoryAdmin.SubcategoryPanel.SetSearch | src/admin/components/SubcategoryAdmin.jsx:128 | typing changes only the search |
| SubcategoryAdmin.SubcategoryPanel.SetFilterCat | src/admin/components/SubcategoryAdmin.jsx:133 | the category select changes only the category filter |
| SubcategoryAdmin.SubcategoryPanel.Reset | src/admin/components/SubcategoryAdmin.jsx:141 | Reset clears both the search and the category filter |
| SubcategoryAdmin.SubcategoryPanel.OpenForm | src/admin/components/SubcategoryAdmin.jsx:53-67 | the form opens blank with no edit id, or filled from the subcategory with its id |
| SubcategoryAdmin.SubcategoryPanel.CloseForm | src/admin/components/SubcategoryAdmin.jsx:69-72 | closing the form also clears the edit id |
| SubcategoryAdmin.SubcategoryPanel.SubmitForm | src/admin/components/SubcategoryAdmin.jsx:79-106 | with no category chosen nothing is sent and nothing changes. An update is sent iff the edit id is set, else a create. On success the form closes, the edit id is cleared and the data is reloaded. On failure the form stays open |
| SubcategoryAdmin.SubcategoryPanel.HandleDelete | src/admin/components/SubcategoryAdmin.jsx:108-117 | declining the confirmation sends nothing and changes nothing. Accepting sends the delete, and a reload follows a successful delete |

## Left out

- `src/api/api.js` is not part of this model. Its HTTP verbs, paths, console
  logging and toasts are reduced to `Call` values and `Reply` parameters.
- Toasts, `alert`, `window.confirm`, JSX rendering and styling are left out.
  A confirmation is a boolean parameter.
- The image upload and `URL.createObjectURL` are left out. A chosen file is a
  boolean, and a successful upload returns the relative path that is prefixed
  with the origin.
- Asynchrony is left out: overlapping fetches, responses arriving out of
  order, and `loading` as a guard against duplicate submits. Each handler and
  each effect is one atomic step. The model does not decide when React runs
  an effect, except for the form effect after an edit click
  (`OpenEditForm`).
- `parseFloat` and `Number` on strings are left out. Prices are reals and
  ids are integers. A field left empty is `None`, and `NaN` from malformed
  numeric input is not modelled.
- `toLowerCase` covers only the ASCII letters. The rest of Unicode case
  mapping is left out.
- The reloads after a mutation send the unset filters as empty query
  parameters, while the list effect omits them. `GetProducts` does not
  distinguish the two.
- Only the form-category `handleChange` is modelled, because it drives the
  subcategory effect. The other field setters of the three forms just copy an
  input value into the form and are left out.
- `Stored` assumes that the server stores exactly the fields of a full
  payload. The server itself is not part of this model.

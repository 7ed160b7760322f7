# PC-parts storefront: a Dafny model of the client-side logic

This project models the client logic of a small web shop for computer parts and
ready-made PC builds. The shop's pages and stores run in the browser. A hosted
database does the rest: authentication, storage and row-level security.

The model covers the following:

- **Cart store.** An ordered list of lines keyed by id and by whether the line is
  a saved build. It supports add (merge or append), remove, set quantity, clear,
  and the two totals.
- **PC-builder store.** At most one product in each of eight component slots.
  A build is modelled as an ordered association list, because object key order
  decides the order of the cart lines and of the saved component ids.
- **Checkout.** It turns the cart into an order row and checks every line's id.
- **Saving a build and adding it to the cart.** The build becomes one synthetic
  cart line.
- **PC-builder page.** Completion, the buttons, "add all to cart" and
  "build to cart".
- **Product page.** The quantity stepper, and "add to cart" and "buy now".
- **Admin product form and its persisted store.** Validation, the
  specification-map editor and the submit payload.
- **Admin list pages.** For products, categories, orders and users: de-duplication,
  selection, search and status filters, sorting, local updates after a
  successful remote call, the status badge colour and the self-demotion guard.
- **Registration form.** Its chain of checks.
- **Protected-route guard.** What it shows for each state of authentication.
- **Small persisted stores.** The interface store, the admin form record, the
  category dialog fields and the dialog flags.

Money is whole cents (`int`). Strings are `seq<char>`.

Module `JsText` holds the JavaScript pieces the pages rely on:

- `trim`;
- `toLowerCase`, for the capitals of the Basic Latin, Latin-1 and basic Cyrillic blocks;
- `includes`;
- `parseInt` on decimal text;
- `String(n)` for integers.

Every call to the hosted database is a parameter of the member that makes it. That covers authentication, inserts and updates. The parameter is the value the call returns, or whether it succeeded. The build id drawn on the client with `uuidv4()` is a parameter too. Navigation, alerts and logging are left out.

Stores and pages whose fields change are classes. Their methods are proved against specification functions. Those functions carry the lemmas.

## Model

Each row names the member whose contract states the property. A function
that only computes has no row of its own; the rows of the lemmas and methods
about it stand for it. For example, `AdminOrders.StatusColor` is covered by
`StatusColorsDistinct`, `AdminCategories.HandleSearch` by `HandleSearchEffect`,
`AdminProducts.HandleSort` by `HandleSortEffect`, `CartStore.WithItem` by the
`Add…` lemmas, `JsText.Trim` by `TrimEmptyIffBlank` and `TrimShape`, and
`JsText.ParseInt` by `ParseIntOfIntToString` and the product page's typing
lemmas.

| member | source | states |
|---|---|---|
| JsText.TrimEmptyIffBlank | src/pages/auth/RegisterPage.tsx:30 | `s.trim()` is empty exactly when every character is white space or a line terminator in the sense of ECMA-262, including every Unicode space separator |
| JsText.TrimShape | src/pages/admin/components/ProductForm.tsx:279-280 | a trimmed string is a contiguous piece of the input with no ECMA-262 white space or line terminator at either end |
| JsText.ToLower | src/pages/admin/AdminUsers.tsx:49 | lower-casing keeps the length and maps each character on its own; A–Z, À–Þ (except ×), Ѐ–Џ and А–Я go to their small letters |
| JsText.LeadingDigits | src/pages/products/ProductDetailPage.tsx:76 | the digits `parseInt` reads are the longest prefix of its input made only of digits: the next character, if any, is not a digit |
| JsText.NatToString | src/pages/admin/components/ProductForm.tsx:73 | `String(n)` of a natural number is non-empty decimal digits |
| JsText.NatToStringValue | src/pages/admin/components/ProductForm.tsx:73 | the digits `String(n)` writes denote `n` |
| JsText.ParseIntOfIntToString | src/pages/products/ProductDetailPage.tsx:75-80 | `parseInt(String(n)) == n` for every integer |
| CartStore.AddRejected | src/stores/cartStore.ts:25-35 | an argument with an empty id, name or image (or zero price) leaves the cart unchanged |
| CartStore.AddMerges | src/stores/cartStore.ts:37-48 | when a line with the same id and build flag exists, only its quantity grows, by `quantity` |
| CartStore.AddAppends | src/stores/cartStore.ts:51-64 | otherwise exactly one line is appended, carrying the argument's id, name, price and image and the quantity; a build line records its own id as build id and copies the components, a product line has neither |
| CartStore.AddKeepsKeysUnique | src/stores/cartStore.ts:20-65 | `addItem` keeps at most one line per (id, build flag) |
| CartStore.AddTotals | src/stores/cartStore.ts:20-93 | `addItem` raises the item count by `quantity`, and the money total by price × quantity |
| CartStore.RepeatedAddsMerge | src/stores/cartStore.ts:20-65 | repeated adds of one product leave one line whose quantity is the sum |
| CartStore.TotalAppend | src/stores/cartStore.ts:81-93 | both totals add up over concatenation |
| CartStore.TotalReplace | src/stores/cartStore.ts:81-93 | replacing one line changes each total by that line's difference |
| CartStore.OneLinePerKey | src/stores/cartStore.ts:37-39 | under the invariant, two lines with the same key are the same line |
| CartStore.MergedIsUpdate | src/stores/cartStore.ts:41-48 | under the invariant, the merging `map` touches exactly one line |
| CartStore.MergeTotals | src/stores/cartStore.ts:41-93 | a merge raises the totals by the merged units |
| CartStore.WithoutMembers | src/stores/cartStore.ts:67-69 | `removeItem(id)` keeps exactly the lines with another id, product and build alike |
| CartStore.WithoutConcat | src/stores/cartStore.ts:67-69 | removal keeps the order of the remaining lines |
| CartStore.WithoutKeepsKeysUnique | src/stores/cartStore.ts:67-69 | removal keeps the one-line-per-key invariant |
| CartStore.WithQuantityEffect | src/stores/cartStore.ts:71-77 | `updateQuantity` sets the quantity of every line with that id and changes nothing else |
| CartStore.UpdateQuantityNotDefensive | src/stores/cartStore.ts:71-77 | the store accepts quantity 0; only the cart page refuses it |
| CartStore.PositiveQuantitiesKept | src/stores/cartStore.ts:20-77 | with quantities of at least 1, all three updates keep every quantity at least 1 |
| CartStore.Cart.constructor | src/stores/cartStore.ts:18 | the cart starts empty |
| CartStore.Cart.AddItem | src/stores/cartStore.ts:20-65 | the new list is `WithItem(old, product, quantity)`; the invariant is kept and the count grows by `quantity` |
| CartStore.Cart.RemoveItem | src/stores/cartStore.ts:67-69 | the new list is exactly the old lines with another id |
| CartStore.Cart.UpdateQuantity | src/stores/cartStore.ts:71-77 | the new list is `WithQuantity(old, id, quantity)` and keeps the invariant |
| CartStore.Cart.ClearCart | src/stores/cartStore.ts:79 | the cart is empty and both totals are 0 |
| PcBuilderStore.Values | src/stores/pcBuilderStore.ts:43 | `Object.values` lists the products in entry order |
| PcBuilderStore.LookupFindsSlot | src/stores/pcBuilderStore.ts:26-31 | a slot is found exactly when it has an entry, and the lookup returns that entry's product |
| PcBuilderStore.PutLookup | src/stores/pcBuilderStore.ts:26-31 | after `addComponent(t, p)` slot `t` holds `p` and every other slot is unchanged |
| PcBuilderStore.PutKeepsSlotsDistinct | src/stores/pcBuilderStore.ts:26-31 | overwriting keeps one entry per slot |
| PcBuilderStore.DeleteLookup | src/stores/pcBuilderStore.ts:33-37 | after `removeComponent(t)` slot `t` is empty and every other slot is unchanged |
| PcBuilderStore.DeleteAbsent | src/stores/pcBuilderStore.ts:33-37 | removing an empty slot changes nothing |
| PcBuilderStore.PutThenDelete | src/stores/pcBuilderStore.ts:26-37 | adding then removing a slot equals removing it |
| PcBuilderStore.TotalAfterPut | src/stores/pcBuilderStore.ts:26-47 | overwriting a slot changes the total by the new price minus the old one |
| PcBuilderStore.TotalAfterDelete | src/stores/pcBuilderStore.ts:33-47 | emptying a slot lowers the total by the price it held |
| PcBuilderStore.BuildTotalBySlot | src/stores/pcBuilderStore.ts:41-47 | `getBuildTotal` is the sum of the prices held by the eight slots |
| PcBuilderStore.ComponentsCountBySlot | src/stores/pcBuilderStore.ts:49-51 | `getComponentsCount` is the number of filled slots: at most 8, and 8 exactly when every slot is filled |
| PcBuilderStore.AllSlotsComplete | src/stores/pcBuilderStore.ts:6 | the eight slot names are distinct and cover the type |
| PcBuilderStore.PCBuilder.constructor | src/stores/pcBuilderStore.ts:24 | the build starts empty |
| PcBuilderStore.PCBuilder.AddComponent | src/stores/pcBuilderStore.ts:26-31 | the slot holds the product, other slots are unchanged, and the total changes by the price difference |
| PcBuilderStore.PCBuilder.RemoveComponent | src/stores/pcBuilderStore.ts:33-37 | the slot is empty, other slots are unchanged, and the total drops by its price |
| PcBuilderStore.PCBuilder.ClearBuild | src/stores/pcBuilderStore.ts:39 | every slot is empty, the total is 0 and the count is 0 |
| Checkout.PayloadShape | src/lib/handleCheckout.ts:43-50 | a line payload sets exactly one of product id and build id (by the build flag), and its price is unit price × quantity |
| Checkout.LineError | src/lib/handleCheckout.ts:53-61 | the build-id check and the payload check together fail exactly on a line with an empty id; the build check comes first, so an empty build line reports an invalid build id and an empty product line reports that neither id is set |
| Checkout.HandleCheckout | src/lib/handleCheckout.ts:4-65 | empty cart: error before any remote call; no auth user: no order request; the order row is (auth id, cart total); success exactly when the insert succeeds and every line has an id, returning the order id |
| Types.Ids | src/lib/createBuildAndAddToCart.ts:20 | `rows.map(r => r.id)`: one id per row, the i-th being the i-th row's id; used for the saved component ids and for select-all on both admin list pages |
| BuildToCart.BuildItemAcceptable | src/lib/createBuildAndAddToCart.ts:42-53 | the cart accepts the build line exactly when the build id is non-empty and the price sum is not 0, so an empty build is dropped |
| BuildToCart.SumPricesOfBuild | src/lib/createBuildAndAddToCart.ts:24 | the saved build's price equals the builder's `getBuildTotal` |
| BuildToCart.NewBuildLine | src/lib/createBuildAndAddToCart.ts:42-53 | a new build appends one build line with quantity 1, the build id and the components |
| BuildToCart.CreateBuildAndAddToCart | src/lib/createBuildAndAddToCart.ts:8-54 | no auth user: no request and no cart change; the row is (build id, user id, component ids); a failed insert leaves the cart unchanged; otherwise the build line is added |
| PcBuilderPage.IsCompleteIffAllFilled | src/pages/pcbuilder/PCBuilderPage.tsx:112 | the build is complete exactly when all eight slots are filled |
| PcBuilderPage.EmptyIffNoSlot | src/pages/pcbuilder/PCBuilderPage.tsx:219-228 | the count is 0 exactly when no slot is filled |
| PcBuilderPage.CompatibilityIssues | src/pages/pcbuilder/PCBuilderPage.tsx:89-101 | the compatibility check never reports an issue |
| PcBuilderPage.ButtonsDisabledIffEmpty | src/pages/pcbuilder/PCBuilderPage.tsx:219-228 | both buttons are disabled exactly when no slot is filled |
| PcBuilderPage.AddEachEffect | src/pages/pcbuilder/PCBuilderPage.tsx:103-108 | adding the products one unit each keeps one line per key and raises the count by the number accepted |
| PcBuilderPage.AddOneMerges | src/pages/pcbuilder/PCBuilderPage.tsx:106 | a product already in the cart gets one more unit and no new line |
| PcBuilderPage.AddAllToCart | src/pages/pcbuilder/PCBuilderPage.tsx:103-108 | the cart becomes the old cart with every slot's product added once, in entry order, and the invariant is kept |
| PcBuilderPage.BuildToCartAction | src/pages/pcbuilder/PCBuilderPage.tsx:259-273 | the selected products are the slots' products, their price sum is the build total, and the cart changes only on success |
| PcBuilderPage.ValuesAreLookups | src/pages/pcbuilder/PCBuilderPage.tsx:266 | each listed value is what its slot holds |
| ProductDetailPage.TypingKeepsPositive | src/pages/products/ProductDetailPage.tsx:75-80 | typing never takes the quantity below 1, and a typed positive number becomes the quantity |
| ProductDetailPage.TypingIgnoresNonPositive | src/pages/products/ProductDetailPage.tsx:75-80 | zero and negative numbers typed in decimal leave the quantity alone |
| ProductDetailPage.DigitlessIgnored | src/pages/products/ProductDetailPage.tsx:75-80 | any text without a digit, the empty field included, parses to `NaN` and leaves the quantity alone |
| ProductDetailPage.DetailPage.constructor | src/pages/products/ProductDetailPage.tsx:12-14 | the quantity starts at 1 |
| ProductDetailPage.DetailPage.QuantityChange | src/pages/products/ProductDetailPage.tsx:75-80 | the quantity follows the typed text and stays at least 1 |
| ProductDetailPage.DetailPage.Decrement | src/pages/products/ProductDetailPage.tsx:186-191 | "−" steps down only from above 1 |
| ProductDetailPage.DetailPage.Increment | src/pages/products/ProductDetailPage.tsx:203-208 | "+" steps up only below the stock, so it never passes the stock |
| ProductDetailPage.DetailPage.AddToCart | src/pages/products/ProductDetailPage.tsx:62-66 | the loaded product is added at the selected quantity; no product means no change |
| ProductDetailPage.DetailPage.BuyNow | src/pages/products/ProductDetailPage.tsx:68-73 | the same addition, and a move to the cart exactly when a product is loaded |
| ProductFormStore.WithSpec | src/store/productFormStore.ts:50-57 | the key holds the value and every other key is unchanged |
| ProductFormStore.WithoutSpec | src/store/productFormStore.ts:58-63 | the key is gone and every other key is unchanged |
| ProductFormStore.RemoveAbsentSpec | src/store/productFormStore.ts:58-63 | deleting a missing key changes nothing |
| ProductFormStore.AddThenRemoveSpec | src/store/productFormStore.ts:50-63 | setting then deleting a key equals deleting it |
| ProductFormStore.FormStore.constructor | src/store/productFormStore.ts:33-40 | the seven fields start at their defaults, not yet rehydrated |
| ProductFormStore.FormStore.SetName | src/store/productFormStore.ts:42 | only the name changes |
| ProductFormStore.FormStore.SetDescription | src/store/productFormStore.ts:43 | only the description changes |
| ProductFormStore.FormStore.SetPrice | src/store/productFormStore.ts:44 | only the price changes |
| ProductFormStore.FormStore.SetImageUrl | src/store/productFormStore.ts:45 | only the image URL changes |
| ProductFormStore.FormStore.SetStock | src/store/productFormStore.ts:46 | only the stock changes |
| ProductFormStore.FormStore.SetCategoryId | src/store/productFormStore.ts:47 | only the category changes |
| ProductFormStore.FormStore.SetSpecs | src/store/productFormStore.ts:49 | the whole specification map is replaced |
| ProductFormStore.FormStore.AddSpec | src/store/productFormStore.ts:50-53 | the specification map gains or overwrites one key |
| ProductFormStore.FormStore.EditSpec | src/store/productFormStore.ts:54-57 | the same update as `addSpec` |
| ProductFormStore.FormStore.RemoveSpec | src/store/productFormStore.ts:58-63 | one key goes; a missing key changes nothing |
| ProductFormStore.FormStore.ClearForm | src/store/productFormStore.ts:65-74 | the seven fields return to their defaults and the hydration flag stays |
| ProductFormStore.FormStore.SetHasHydrated | src/store/productFormStore.ts:76 | only the hydration flag changes |
| ProductFormStore.FormStore.Rehydrate | src/store/productFormStore.ts:80-91 | the saved fields replace the seven fields, and the store is marked hydrated |
| ProductForm.ValidationErrorsEmptyIff | src/pages/admin/components/ProductForm.tsx:84-94 | the error dictionary is empty exactly on a valid form, and has a key exactly for each failing check |
| ProductForm.CollectErrors | src/pages/admin/components/ProductForm.tsx:84-94 | the dictionary built check by check is the specified one, empty exactly on a valid form |
| ProductForm.StringSpecs | src/pages/admin/components/ProductForm.tsx:70-78 | same keys; null and undefined become "", strings are kept |
| ProductForm.NumberSpecRoundTrip | src/pages/admin/components/ProductForm.tsx:72-74 | a whole-number value shown as text reads back as the same number |
| ProductForm.RenameEffect | src/pages/admin/components/ProductForm.tsx:237-241 | saving an edited row drops the old key, sets the new one, and keeps every other key |
| ProductForm.RenameToSelf | src/pages/admin/components/ProductForm.tsx:237-241 | renaming a key to itself only replaces its value |
| ProductForm.PayloadFor | src/pages/admin/components/ProductForm.tsx:124-143 | an update carries the product's id and a creation carries none; the fields are the form's |
| ProductForm.SubmittedForm | src/pages/admin/components/ProductForm.tsx:109-114 | the submitted form carries a non-blank pending specification under its trimmed key |
| ProductForm.PendingSpecDropped | src/pages/admin/components/ProductForm.tsx:109-143 | a specification typed but not added is missing from the payload as written and present as intended |
| ProductForm.Form.constructor | src/pages/admin/components/ProductForm.tsx:43-49 | no row is being edited, the inputs are empty and there are no errors |
| ProductForm.Form.Initialize | src/pages/admin/components/ProductForm.tsx:59-82 | on first run with a product, the store holds that product's form; otherwise the store is unchanged |
| ProductForm.Form.Validate | src/pages/admin/components/ProductForm.tsx:84-94 | the errors are those of the rendered form, and the result says whether it is valid |
| ProductForm.Form.HandleCancel | src/pages/admin/components/ProductForm.tsx:96-99 | the form store is cleared |
| ProductForm.Form.HandleRemoveSpec | src/pages/admin/components/ProductForm.tsx:101-104 | the key goes, and editing ends if that key was being edited; the other store fields, the inputs, the errors and the hydration flag are kept |
| ProductForm.Form.RemoveButton | src/pages/admin/components/ProductForm.tsx:255-259 | the key goes and the edit state is kept |
| ProductForm.Form.EditOrSave | src/pages/admin/components/ProductForm.tsx:231-248 | "Edit" starts editing the row; "Save" with a blank input changes nothing; otherwise it renames the key and leaves edit mode; "Save" keeps the edit inputs, and neither branch touches the new-spec inputs, errors or hydration flag |
| ProductForm.Form.AddButton | src/pages/admin/components/ProductForm.tsx:278-290 | a blank input is ignored; otherwise the trimmed pair is added and the inputs are emptied |
| ProductForm.Form.MergePendingAndValidate | src/pages/admin/components/ProductForm.tsx:109-116 | a pending pair with both parts non-blank is merged into the store under its trimmed key and both inputs are emptied; otherwise the store and the inputs are kept; the edit state is kept; validation runs on the rendered form |
| ProductForm.Form.HandleSubmitAsWritten | src/pages/admin/components/ProductForm.tsx:106-147 | a valid form is submitted from the render's own specification map and the store is cleared; an invalid one shows the render's errors and leaves the merged pending pair in the store; the spec inputs are emptied exactly when the pending pair was non-blank, so the pending pair is lost |
| ProductForm.Form.HandleSubmit | src/pages/admin/components/ProductForm.tsx:106-147 | a valid form is submitted with the pending specification included, and the store is cleared; the spec inputs are emptied exactly when the pending pair was non-blank |
| AdminProducts.UniqueById | src/pages/admin/AdminProducts.tsx:25-32 | the one-pass loop keeps the first row of each id, has distinct ids and loses no id |
| AdminProducts.DedupIds | src/pages/admin/AdminProducts.tsx:25-32 | the result has distinct ids, the same set of ids, and only input rows |
| AdminProducts.DedupKeepsFirst | src/pages/admin/AdminProducts.tsx:25-32 | a row whose id does not occur earlier is kept |
| AdminProducts.DedupPrefix | src/pages/admin/AdminProducts.tsx:25-32 | the result for a prefix is a prefix of the result |
| AdminProducts.DedupOfDistinct | src/pages/admin/AdminProducts.tsx:25-32 | rows with distinct ids come back unchanged |
| AdminProducts.RemoveId | src/pages/admin/AdminProducts.tsx:163 | the filter keeps every other id |
| AdminProducts.ToggleEffect | src/pages/admin/AdminProducts.tsx:162-164 | a toggle flips the id's membership, leaves the other ids, and appends a new id at the end |
| AdminProducts.ToggleTwice | src/pages/admin/AdminProducts.tsx:162-164 | toggling twice restores membership, and restores the list for a new id |
| AdminProducts.SelectAll | src/pages/admin/AdminProducts.tsx:165-167 | (corrected; as written: AdminProducts.SelectAllAsWritten) clears when every listed product is selected; otherwise selects every listed product |
| AdminProducts.StaleSelectionMisleads | src/pages/admin/AdminProducts.tsx:165-167 | a selection holding a deleted id looks complete to the length test, and "select all" then clears it |
| AdminProducts.AllSelectedAgrees | src/pages/admin/AdminProducts.tsx:22 | on a selection of listed ids without repeats, the length test is right |
| AdminProducts.HandleSortEffect | src/pages/admin/AdminProducts.tsx:86-93 | the current field flips direction, twice restores it; a new field sorts ascending |
| AdminProducts.WithoutProductMembers | src/pages/admin/AdminProducts.tsx:124 | the delete keeps exactly the rows with another id |
| AdminProducts.WithoutProductConcat | src/pages/admin/AdminProducts.tsx:124 | the delete keeps the list's order |
| AdminProducts.WithoutProductShape | src/pages/admin/AdminProducts.tsx:124 | with distinct ids only the deleted row goes, and the others keep their order |
| AdminCategories.SelectAll | src/pages/admin/AdminCategories.tsx:35-41 | ticking selects exactly the listed ids; unticking selects none |
| AdminCategories.SelectAllTicksBox | src/pages/admin/AdminCategories.tsx:34-41 | after "select all" on a non-empty list the header box is ticked; after clearing it is not |
| AdminCategories.ToggleSelectHere | src/pages/admin/AdminCategories.tsx:44-48 | this page's toggle removes a present id and appends an absent one |
| AdminCategories.ValidateForm | src/pages/admin/AdminCategories.tsx:125-134 | the only error is "Name is required", present exactly when the name is blank |
| AdminCategories.FilterCategories | src/pages/admin/AdminCategories.tsx:76-79 | keeps exactly the categories whose name or non-empty description contains the query, ignoring case |
| AdminCategories.FilterConcat | src/pages/admin/AdminCategories.tsx:76-79 | the filter keeps the list's order |
| AdminCategories.HandleSearchEffect | src/pages/admin/AdminCategories.tsx:72-84 | a blank query refetches; any other query keeps exactly the matches |
| AdminCategories.EditedLocallyEffect | src/pages/admin/AdminCategories.tsx:162-164 | only the edited category changes, taking the form's fields |
| AdminCategories.AddedLocally | src/pages/admin/AdminCategories.tsx:179 | the inserted row goes at the end |
| AdminCategories.DeletedLocally | src/pages/admin/AdminCategories.tsx:118 | keeps exactly the categories with another id |
| AdminCategories.DeletedLocallyConcat | src/pages/admin/AdminCategories.tsx:118 | the delete keeps the order of the remaining categories |
| AdminOrders.Mapped | src/pages/admin/AdminOrders.tsx:54-84 | a missing user becomes the "Unknown" placeholder with user id ""; present shipping and payment records are kept and missing ones become empty records; no items; updated = created |
| AdminOrders.MapOrderAsWritten | src/pages/admin/AdminOrders.tsx:40-64 | every row gets the placeholder user |
| AdminOrders.MapOrder | src/pages/admin/AdminOrders.tsx:40-64 | the joined user is shown when there is one, the placeholder otherwise |
| AdminOrders.JoinedUserLost | src/pages/admin/AdminOrders.tsx:40-64 | an order of a known customer shows "Unknown" as written, and the customer as intended |
| AdminOrders.FilteredOrders | src/pages/admin/AdminOrders.tsx:168-178 | keeps exactly the orders that pass the status filter and the search |
| AdminOrders.NoFilterKeepsAll | src/pages/admin/AdminOrders.tsx:168-178 | with status "all" and no search text every order is shown, in order |
| AdminOrders.FilterEffect | src/pages/admin/AdminOrders.tsx:169-176 | a status filter keeps only that exact status; search text keeps only ids or e-mails containing it, ignoring case |
| AdminOrders.WithStatusEffect | src/pages/admin/AdminOrders.tsx:139-141 | only the orders with that id change, and only in their status |
| AdminOrders.OrdersPage.UpdateStatus | src/pages/admin/AdminOrders.tsx:130-149 | a failed update changes nothing; otherwise the list and the open order with that id take the new status |
| AdminOrders.StatusColorsDistinct | src/pages/admin/AdminOrders.tsx:151-166 | the five known statuses get distinct non-gray badges; any other status gets gray |
| AdminUsers.MatchingUsers | src/pages/admin/AdminUsers.tsx:48-52 | keeps exactly the users whose e-mail or present first or last name contains the search |
| AdminUsers.MatchingConcat | src/pages/admin/AdminUsers.tsx:48-52 | the filter keeps the list's order |
| AdminUsers.FilteredEffect | src/pages/admin/AdminUsers.tsx:47-53 | an empty search returns the list unchanged; a user with no names is found by e-mail only |
| AdminUsers.ToggleAdmin | src/pages/admin/AdminUsers.tsx:56-64 | the request is sent exactly when the target is not the signed-in admin; otherwise an alert is shown |
| AdminUsers.GuardOnlyBlocksSelfDemotion | src/pages/admin/AdminUsers.tsx:57-60 | other users, a non-admin self and a page with no user are never blocked |
| RegisterPage.FirstError | src/pages/auth/RegisterPage.tsx:22-33 | a mismatch is reported first, then a password under 6 characters, then a blank name |
| RegisterPage.FirstErrorNoneIff | src/pages/auth/RegisterPage.tsx:22-33 | the form passes exactly when the passwords agree, are at least 6 long and both names are non-blank |
| RegisterPage.MismatchFirst | src/pages/auth/RegisterPage.tsx:22-25 | while the passwords differ, no other problem is reported |
| RegisterPage.Register.constructor | src/pages/auth/RegisterPage.tsx:9-15 | all fields empty, no error, not loading |
| RegisterPage.Register.HandleSubmit | src/pages/auth/RegisterPage.tsx:19-44 | sign-up is called exactly when every check passes; the old error never survives; the home page follows a successful sign-up |
| Routing.Protect | src/App.tsx:29-63 | children render exactly with no truthy error, not loading, a user, and admin rights when required; a non-empty error always redirects to login carrying it, an empty one does not |
| Routing.ProtectOrder | src/App.tsx:36-61 | without a truthy error, loading shows the spinner, then a missing user saves the path and redirects to login, then a non-admin goes home; an empty error message acts like none |
| Routing.AdminRightsOnlyMatterWhenRequired | src/App.tsx:31-61 | without `requireAdmin` admin rights change nothing; with it, exactly the admins get through |
| UiStore.MergeEffect | src/store/uiStore.ts:96-102 | each of the seven fields is overwritten when supplied and kept otherwise; an empty patch changes nothing; applying a patch twice is applying it once |
| UiStore.MergeThen | src/store/uiStore.ts:96-102 | two updates are one update with the later values winning |
| UiStore.Ui.constructor | src/store/uiStore.ts:71-95 | empty texts, sort by name ascending, an empty new-product form |
| UiStore.Ui.SetAdminSearchQuery | src/store/uiStore.ts:72 | only the admin search text changes |
| UiStore.Ui.SetProductsFilterCategory | src/store/uiStore.ts:75 | only the category filter changes |
| UiStore.Ui.SetProductsSortField | src/store/uiStore.ts:78 | only the sort field changes |
| UiStore.Ui.SetProductsSortDirection | src/store/uiStore.ts:81 | only the sort direction changes |
| UiStore.Ui.SetDraftText | src/store/uiStore.ts:84 | only the draft changes |
| UiStore.Ui.ClearDraftText | src/store/uiStore.ts:85 | the draft becomes "" and nothing else changes |
| UiStore.Ui.SetNewProductForm | src/store/uiStore.ts:96-102 | the form becomes the old form merged with the patch; nothing else changes |
| UiStore.Ui.ClearNewProductForm | src/store/uiStore.ts:103-114 | the form returns to its initial value; nothing else changes |
| FormStore.MergeEffect | src/store/useFormStore.ts:27-30 | exactly the supplied keys are overwritten; `setFormData({})` changes nothing |
| FormStore.FullPatchReplaces | src/store/useFormStore.ts:27-40 | a patch naming every key replaces the whole record |
| FormStore.Store.constructor | src/store/useFormStore.ts:20-26 | all five fields start as "" |
| FormStore.Store.SetFormData | src/store/useFormStore.ts:27-30 | the record becomes the old record merged with the patch |
| FormStore.Store.ClearFormData | src/store/useFormStore.ts:31-40 | the all-empty record is restored |
| CategoryModalStore.WithField | src/store/categoryModalStore.ts:18 | the chosen field holds the value and the other two are unchanged |
| CategoryModalStore.WithFieldLaws | src/store/categoryModalStore.ts:18 | a second set of the same field wins; sets of different fields commute |
| CategoryModalStore.CategoryModal.constructor | src/store/categoryModalStore.ts:15-17 | all three fields start as "" |
| CategoryModalStore.CategoryModal.SetField | src/store/categoryModalStore.ts:18 | only the chosen field changes |
| CategoryModalStore.CategoryModal.Reset | src/store/categoryModalStore.ts:19 | all three fields are "" whatever was set before, so a set then a reset equals a reset |
| ModalStore.Modals.constructor | src/store/useModalStore.ts:13-14 | both flags start false |
| ModalStore.Modals.OpenAddModal | src/store/useModalStore.ts:15 | the add flag is true and the edit flag is unchanged |
| ModalStore.Modals.CloseAddModal | src/store/useModalStore.ts:16 | the add flag is false and the edit flag is unchanged |
| ModalStore.Modals.OpenEditModal | src/store/useModalStore.ts:17 | the edit flag is true and the add flag is unchanged |
| ModalStore.Modals.CloseEditModal | src/store/useModalStore.ts:18 | the edit flag is false and the add flag is unchanged |

## Left out

- Remote calls are not modelled: database queries, inserts, updates, deletes, authentication and the admin server's HTTP endpoints. Their results are parameters, or the calls are not modelled at all (fetches, refetches, bulk deletes).
- The `persist` middleware and its JSON round trip through local storage are not modelled, nor storage errors during rehydration. Rehydration is modelled as replacing the saved fields.
- Navigation, `alert`, `console` output, loading spinners other than the route guard's, and the rendering itself are not modelled.
- Floating point is not modelled. Prices are whole cents. The tax and subtotal arithmetic of the cart and checkout pages is not part of this model, and neither is `toFixed`.
- The `Number(...)` coercion of specification values on submit is not modelled: the model keeps every value as text. In the source, a non-blank value that reads as a number, such as " 12 ", "1e3" or "0x1A", is sent as that number, and any other text is sent as the text itself. Only whole decimal numbers are round-tripped (ProductForm.NumberSpecRoundTrip).
- `typeof` checks on values the types already fix are not modelled. This covers the price check in the checkout total and the id check on build lines.
- Checkout.HandleCheckout: a failed order insert is one error value. In the source, line 33 reads `orderData.user_id` before the error check. With no row, that throws a TypeError rather than the intended message. Either way the checkout fails before any line is checked.
- Checkout.HandleCheckout: the loop builds each line payload and checks it, but the source never sends the payloads. The model likewise sends nothing per line.
- JsText.ToLower lower-cases only A–Z, À–Þ (except ×), Ѐ–Џ and А–Я. Other capitals, such as those of Latin Extended-A (Ā, Ł), Greek, or the Cyrillic supplement, and the special cases of full Unicode case mapping, are left as they are.
- JsText.ParseInt reads optional leading white space, a sign and decimal digits. The `0x` prefix and other radix rules are not modelled.
- The product form keeps its specification map as a `map`, so key order is not modelled. In the source a rename deletes the old key and assigns the new one, which moves the renamed row to the end of the rendered list; the model only states which keys and values remain.
- Text lengths are counted in characters, not UTF-16 code units (the six-character password rule).
- UiStore.MergeEffect and FormStore.MergeEffect treat a key that is present with the value `undefined` as absent. In JavaScript, such a key would overwrite the field with `undefined`.
- The category dialog's form has no input fields, so its form data never changes after the dialog opens. The model therefore takes that data as a parameter.
- The admin order page's own search handler only prevents the browser's default action, so nothing is modelled for it. Loading one order's items and details for the view dialog is a remote call and is not modelled.
- Sorting the product list by the chosen field is done by the database query; only the sort state is modelled.
- The cart page, checkout page and other non-core pages are not part of this model.

## Findings

| source | as written | input that shows it | evidently intended | confidence | as-written member | corrected member |
|---|---|---|---|---|---|---|
| src/pages/admin/AdminProducts.tsx:22 | `allSelected` compares the selection's length with the list's length. The selection is saved in local storage and is kept across refetches and deletions (lines 34-41, 64, 124). | products `a`, `b`; selection `[a.id, gone]`, where `gone` is a deleted id: the header box shows ticked and "select all" clears the selection | every listed product is selected, so "select all" selects `[a.id, b.id]` | medium, not executed | AdminProducts.StaleSelectionMisleads | AdminProducts.SelectAll |
| src/pages/admin/components/ProductForm.tsx:109-143 | `handleSubmit` merges a pending specification into the store, then builds the payload from the render's own `specs`, then clears the store | rendered specs `{}`, pending key "cores", value "8": the payload has no "cores", and the clear loses it | the payload carries the specification that was just merged | high, not executed | ProductForm.PendingSpecDropped | ProductForm.Form.HandleSubmit |
| src/pages/admin/AdminOrders.tsx:40 | the order query names the joined user `users`, but the mapping reads `o.user` | any order placed by a signed-up customer: it is listed with e-mail "Unknown" and user id "" | the joined user is shown, and the placeholder only when there is none | high, not executed | AdminOrders.JoinedUserLost | AdminOrders.MapOrder |

# talktoshop_mall storefront state, in Dafny

This project models the client-side state logic of the talktoshop_mall storefront. The storefront is a React application backed by Supabase (a hosted Postgres with storage buckets and auth). The model covers:

- the shopping cart context and its persistence in `localStorage`;
- the checkout page;
- the product detail page;
- the shop and category grids;
- the vendor's product, order, edit and registration screens;
- the admin's product, order, vendor, message and blog screens.

Most page components are a `class`:

- its `useState` variables are fields;
- its handlers are methods with `modifies` clauses;
- its pure helpers (filters, badges, slugs, the vendor normalisation, the star display) are functions, with lemmas about them.

The shop and category pages are not classes. Their state is the fetched products, a loading flag and a selection, and they only render from it. Each is modelled as functions from that state to what is shown (`Shop.Shown` and `Shop.View`, `CategoryPage.Shown` and `CategoryPage.View`).

The model replaces the parts it cannot execute with parameters and recorded effects:

- **Backend calls.** Every Supabase call (select, insert, update, delete, upload, `auth.getUser`) becomes an input: the answer the backend gives, as an `Outcome`, an `Option` or a `Result`. The method also returns the list of `Request`s it issued, so "no call is made" is stated as `requests == []`.
- **Browser effects.** Alerts and `navigate` calls are appended to the `alerts` and `navigations` fields.
- **Clock and browser values.** `Date.now()` becomes a `stamp` parameter, and `new Date().toISOString()` a `now` parameter. `URL.createObjectURL` becomes a `previewUrl` parameter. `Number.prototype.toString` becomes a `numberText` parameter.

Modules, one per source file, plus shared helpers:

- `Common`: Option/Result/Outcome/Request, `Filter`, ASCII case mapping, `includes`, the file extension, toggling.
- `JsValues`: loosely typed values as the backend returns them.
- `KeyedList`: id-keyed update and delete on an in-memory list of rows.
- `CartSnapshot`: the cart's stored form.
- `Types`: the CATEGORIES table.
- `ProductFilter` and `AdminProductForm`: shared by two pages each.
- Pages: `CartContext`, `Checkout`, `ProductDetail`, `Shop`, `CategoryPage`, `VendorProducts`, `VendorOrders`, `VendorEditProduct`, `VendorRegister`, `OrdersList`, `AdminVendorManagement`, `MessagesList`, `EditProduct`, `AddProduct`, `AdminAddBlog`.

## Model

| member | source | states |
|---|---|---|
| Types.FindIn | src/types/index.ts:46-87 | the lookup finds a category exactly when one with that name exists; what it finds is in the table and carries that name |
| Types.SubcategoriesOf | src/pages/Category.tsx:14-15 | a known category yields its row's subcategories, an unknown one yields [] |
| Types.CategoryCount | src/types/index.ts:46-87 | the table has ten categories |
| Types.CategoryNamesDistinct | src/types/index.ts:46-87 | category names are pairwise distinct and none is empty |
| Types.SubcategoryListsWellFormed | src/types/index.ts:46-87 | every category has at least one subcategory and none twice |
| Types.AllIsNoCategoryName | src/types/index.ts:46-87 | the 'All' sentinel is neither a category name nor a subcategory name |
| CartSnapshot.Encode | src/contexts/CartContext.tsx:40-42 | the stored value is never empty |
| CartSnapshot.RoundTrip | src/contexts/CartContext.tsx:35-42 | decoding what was persisted gives back the same cart, field for field, colour lists included |
| CartSnapshot.EncodeInjective | src/contexts/CartContext.tsx:40-42 | two different carts never persist to the same value |
| CartContext.CountAtLeastLines | src/contexts/CartContext.tsx:79 | a valid cart's count is at least its number of lines, and is 0 exactly when the cart is empty |
| CartContext.AddNewProduct | src/contexts/CartContext.tsx:44-54 | a product not in the cart is appended as one line with quantity 1 and the other lines are unchanged; the count grows by 1 and the total by its price |
| CartContext.AddExistingProduct | src/contexts/CartContext.tsx:44-54 | a product already in a valid cart gets its line's quantity raised by 1 with its stored fields kept; no line is added; the total grows by the stored price |
| CartContext.FilterKeepsUniqueIds | src/contexts/CartContext.tsx:56-58 | filtering lines keeps ids unique |
| CartContext.RemoveProduct | src/contexts/CartContext.tsx:56-58 | every line with that id goes and the other lines stay in order; in a valid cart exactly that line goes, count and total drop by its share, and the cart stays valid |
| CartContext.UpdateQuantity | src/contexts/CartContext.tsx:60-68 | a quantity of 0 or less removes the product; a positive one sets exactly that line's quantity; count and total change by the difference; validity is kept |
| CartContext.AddTimes | src/pages/ProductDetail.tsx:171-181 | n adds of a new product append one line with quantity n; n adds of a present one raise its quantity by n; the count grows by n and validity is kept |
| CartContext.AddTimesNew | src/pages/ProductDetail.tsx:171-181 | n >= 1 adds of a product not in the cart append exactly one line with quantity n; the count grows by n and validity is kept |
| CartContext.AddTimesExisting | src/pages/ProductDetail.tsx:171-181 | n adds of a product already on line k raise that line's quantity by n and change nothing else; the count grows by n |
| CartContext.ValidAcrossActions | src/contexts/CartContext.tsx:44-72 | unique ids and quantities of at least 1 survive any sequence of add, remove, update and clear |
| CartContext.ClearEmpties | src/contexts/CartContext.tsx:70-77 | after clearing, the cart is empty and count and total are 0 |
| CartContext.RestoreAfterPersist | src/contexts/CartContext.tsx:35-42 | an absent or empty saved value restores the empty cart, and a persisted cart restores to itself with the same totals |
| CartContext.CartProvider.constructor | src/contexts/CartContext.tsx:35-42 | the provider starts with the restored cart, already persisted |
| CartContext.CartProvider.Persist | src/contexts/CartContext.tsx:40-42 | the saved value becomes the encoding of the current cart |
| CartContext.CartProvider.AddToCart | src/contexts/CartContext.tsx:44-54 | the cart becomes the added cart and is persisted |
| CartContext.CartProvider.RemoveFromCart | src/contexts/CartContext.tsx:56-58 | the cart becomes the filtered cart and is persisted |
| CartContext.CartProvider.UpdateQuantity | src/contexts/CartContext.tsx:60-68 | the cart becomes the updated cart (removed at 0 or less) and is persisted |
| CartContext.CartProvider.ClearCart | src/contexts/CartContext.tsx:70-72 | the cart is empty and persisted |
| CartContext.Mount | src/contexts/CartContext.tsx:35-42 | mounting succeeds exactly when the saved value restores; the provider then holds the restored cart |
| Checkout.ChangeOnlyNamedField | src/pages/Checkout.tsx:18-23 | a field change sets that field and leaves the other three alone |
| Checkout.FormValidIffNoEmptyField | src/pages/Checkout.tsx:68 | the form is valid exactly when no field is empty |
| Checkout.RenderedButtons | src/pages/Checkout.tsx:63-66 | nothing renders exactly for an empty cart; Continue is enabled exactly for a valid form; Pay is enabled exactly while not submitting; exactly one of the two is on screen |
| Checkout.CheckoutPage.constructor | src/pages/Checkout.tsx:15-16 | an empty form, bank details hidden, nothing outstanding |
| Checkout.CheckoutPage.Render | src/pages/Checkout.tsx:63-66 | every render with an empty cart navigates to the cart page |
| Checkout.CheckoutPage.HandleChange | src/pages/Checkout.tsx:18-23 | the named field takes the value |
| Checkout.CheckoutPage.ClickContinue | src/pages/Checkout.tsx:149-160 | the bank details show once the cart is non-empty and the form valid, and stay shown |
| Checkout.CheckoutPage.ClickPay | src/pages/Checkout.tsx:31-43 | when Pay is enabled, one insert of the current form and cart with the cart total, "BANK_TRANSFER" and "pending"; otherwise nothing |
| Checkout.CheckoutPage.InsertReturned | src/pages/Checkout.tsx:44-60 | the submitting flag clears either way; success alerts, moves to the thank-you page and only schedules the clear; failure alerts and stays |
| Checkout.CheckoutPage.RunDeferredClear | src/pages/Checkout.tsx:47-53 | the scheduled clear empties and persists the cart |
| Checkout.EmptiedFieldStillSubmitted | src/pages/Checkout.tsx:187-193 | a form emptied after Continue is still sent: an order with an empty name goes out |
| ProductDetail.Classify | src/pages/ProductDetail.tsx:47-66 | exactly one of the four vendor shapes applies, each iff its guard holds |
| ProductDetail.NormalisationCases | src/pages/ProductDetail.tsx:47-66 | the display vendor each branch yields: the first element's string fields, the object's name and truthy id, the string itself, or empty |
| ProductDetail.VendorIdAgreesWithRecord | src/pages/ProductDetail.tsx:77-81 | outside the unrecognised branch a string display id equals vendor_id |
| ProductDetail.VendorIdWithoutBusinessName | src/pages/ProductDetail.tsx:47-81 | an object with an id but no business_name shows an empty id while its vendor_id is that id |
| ProductDetail.Repeat | src/pages/ProductDetail.tsx:345 | n copies of one character |
| ProductDetail.StarsShape | src/pages/ProductDetail.tsx:345 | a rating in 0..5 renders as five stars, that many full ones first, reading back as the rating; any other rating throws |
| ProductDetail.LoadedLineVendor | src/pages/ProductDetail.tsx:163-181 | a cart line names the vendor id when there is one, and the display name otherwise |
| ProductDetail.LineColors | src/pages/ProductDetail.tsx:171-181 | a line carries the selected colour as a one-element list, or an empty list |
| ProductDetail.ProductDetailPage.constructor | src/pages/ProductDetail.tsx:24 | quantity starts at 1 and the review form is empty |
| ProductDetail.ProductDetailPage.ProductFetched | src/pages/ProductDetail.tsx:36-90 | the product is the row with its vendor normalised |
| ProductDetail.ProductDetailPage.Decrement | src/pages/ProductDetail.tsx:286 | quantity drops by 1 but never below 1 |
| ProductDetail.ProductDetailPage.Increment | src/pages/ProductDetail.tsx:293 | quantity grows by 1 |
| ProductDetail.ProductDetailPage.HandleAddToCart | src/pages/ProductDetail.tsx:163-183 | the cart is the line added `quantity` times; without a product nothing changes |
| ProductDetail.ProductDetailPage.SelectColor | src/pages/ProductDetail.tsx:312 | a colour swatch click selects that colour |
| ProductDetail.ProductDetailPage.SetRating | src/pages/ProductDetail.tsx:364 | the rating becomes the chosen value |
| ProductDetail.ProductDetailPage.SetComment | src/pages/ProductDetail.tsx:378 | the comment becomes the typed text |
| ProductDetail.ProductDetailPage.SubmitReview | src/pages/ProductDetail.tsx:125-152 | a rating outside 1..5 is refused before any call; no user stops before the insert; a failed insert keeps the form; success resets rating and comment |
| VendorOrders.OrderLabel | src/pages/vendor/VendorOrders.tsx:79 | the first eight characters of the id (all of a shorter one), upper-cased |
| VendorOrders.VendorOrdersAreSummariesOfRowsWithItems | src/pages/vendor/VendorOrders.tsx:61-88 | the list is the rows with items, in order, each summarised |
| VendorOrders.VendorOrdersSound | src/pages/vendor/VendorOrders.tsx:61-88 | every summary has items, its items' total and its id's label, and comes from a fetched row |
| VendorOrders.VendorOrdersComplete | src/pages/vendor/VendorOrders.tsx:61-88 | every fetched row with items has its summary in the list |
| VendorOrders.SumItems | src/pages/vendor/VendorOrders.tsx:71-75 | the reduce computes the sum of price times quantity |
| VendorOrders.CollectVendorOrders | src/pages/vendor/VendorOrders.tsx:61-88 | the loop builds exactly the aggregation |
| VendorOrders.SearchSpec | src/pages/vendor/VendorOrders.tsx:97-105 | the search keeps exactly the matching orders, each as often as it occurs, in order; an empty query keeps all |
| VendorOrders.VendorOrdersPage.constructor | src/pages/vendor/VendorOrders.tsx:30-33 | no orders, nothing shown, an empty query and no order expanded |
| VendorOrders.VendorOrdersPage.FetchVendorOrders | src/pages/vendor/VendorOrders.tsx:39-105 | without a user, or when the select fails, the lists stay; otherwise the orders become the aggregation of the rows and the shown list is their search by the current query |
| VendorOrders.VendorOrdersPage.SetSearch | src/pages/vendor/VendorOrders.tsx:97-105 | the shown list is the search of the orders |
| VendorOrders.VendorOrdersPage.ToggleExpand | src/pages/vendor/VendorOrders.tsx:107-109 | the expanded order toggles |
| Common.ToggleSpec | src/pages/vendor/VendorOrders.tsx:107-109 | toggling opens the id unless it is the open one, which closes; toggling the same id again leaves it open exactly when it started open |
| Common.AfterLastDotSpec | src/pages/vendor/VendorRegister.tsx:95 | the extension is a dot-free suffix of the name, preceded by '.' unless it is the whole name |
| Common.FilterSpec | src/pages/vendor/VendorProducts.tsx:194-198 | Array.filter keeps an order-preserving subsequence: every kept element satisfies the test, and each element occurs as often as in the input when it satisfies the test and not at all otherwise |
| KeyedList.WithoutIdSpec | src/pages/admin/OrdersList.tsx:64-65 | a delete drops every row with the id, keeps every other row as many times as it occurs and in order, and changes nothing for an absent id |
| KeyedList.WithoutUniqueId | src/pages/admin/OrdersList.tsx:64-65 | with one row holding the id, a delete removes just that position |
| OrdersList.GetItemsArrayCases | src/pages/admin/OrdersList.tsx:79-89 | falsy and other values give []; an array is kept; a string gives what JSON.parse gives, or [] when it throws |
| OrdersList.ParsedNonArrayKept | src/pages/admin/OrdersList.tsx:81-87 | a stored string that parses to a number comes back as that number, not as an array |
| OrdersList.StatusBadgeCases | src/pages/admin/OrdersList.tsx:143-149 | green exactly for "completed", red exactly for "cancelled", yellow otherwise |
| OrdersList.StatusChangeOnlyTouchesId | src/pages/admin/OrdersList.tsx:42-46 | a status change keeps the length, updates the rows with the id and nothing else |
| OrdersList.OrdersListPage.constructor | src/pages/admin/OrdersList.tsx:5-7 | no orders, loading, and no order expanded |
| OrdersList.OrdersListPage.FetchOrders | src/pages/admin/OrdersList.tsx:14-30 | one select; an error keeps the list and alerts; otherwise the list becomes the rows, or [] for a missing answer; loading ends either way |
| OrdersList.OrdersListPage.HandleStatusChange | src/pages/admin/OrdersList.tsx:33-51 | one update; the list changes only on success |
| OrdersList.OrdersListPage.HandleDelete | src/pages/admin/OrdersList.tsx:54-71 | a declined confirm sends nothing; the order leaves the list only on success |
| OrdersList.OrdersListPage.ToggleExpand | src/pages/admin/OrdersList.tsx:74-76 | the expanded order toggles |
| VendorProducts.StockBadgeCases | src/pages/vendor/VendorProducts.tsx:44-49 | red exactly at 0, yellow below 10 otherwise, green from 10 |
| VendorProducts.FilteredSpec | src/pages/vendor/VendorProducts.tsx:194-198 | the search keeps exactly the products whose name or category matches, each as often as it occurs, in order; an empty query keeps all |
| VendorProducts.ViewCases | src/pages/vendor/VendorProducts.tsx:200-226 | once loaded, the grid shows exactly for an approved vendor; pending and rejected vendors read different warnings |
| VendorProducts.VendorProductsPage.constructor | src/pages/vendor/VendorProducts.tsx:126-130 | loading, no vendor, no products, an empty query and no delete pending |
| VendorProducts.VendorProductsPage.LoadData | src/pages/vendor/VendorProducts.tsx:132-179 | no user or no vendor row navigates away with the spinner kept; products are fetched only for an approved vendor |
| VendorProducts.VendorProductsPage.SetSearch | src/pages/vendor/VendorProducts.tsx:233 | the query becomes the typed text |
| VendorProducts.VendorProductsPage.ConfirmDelete | src/pages/vendor/VendorProducts.tsx:181-192 | without an id or vendor nothing happens; otherwise one delete, and the product leaves the list whatever the outcome |
| VendorProducts.VendorProductsPage.SetDeleteId | src/pages/vendor/VendorProducts.tsx:259 | the dialog targets that product, or closes |
| VendorEditProduct.AddColorCases | src/pages/vendor/VendorEditProduct.tsx:109-120 | an invalid or duplicate colour only sets its error; the list changes exactly for a new valid colour, which goes at the end |
| VendorEditProduct.DuplicateCheckIsCaseSensitive | src/pages/vendor/VendorEditProduct.tsx:109-120 | the same colour in other letter case is accepted again |
| VendorEditProduct.RemoveColorSpec | src/pages/vendor/VendorEditProduct.tsx:123-125 | every occurrence goes, every occurrence of the other colours stays in order, an absent colour changes nothing |
| VendorEditProduct.SubcategoryEffect | src/pages/vendor/VendorEditProduct.tsx:140-149 | an empty category clears the choices, an unknown one keeps them, a known one gives its row |
| VendorEditProduct.SubcategoriesAfterSpec | src/pages/vendor/VendorEditProduct.tsx:140-149 | over any table with distinct, non-empty names: an empty category clears the choices, an unknown one keeps them, a category naming row i gives row i's subcategories, which are never empty |
| VendorEditProduct.IssuesAreFailedRules | src/pages/vendor/VendorEditProduct.tsx:69-77 | a rule is reported exactly when it fails; the form passes exactly when all seven rules hold |
| VendorEditProduct.FormOnlyForApproved | src/pages/vendor/VendorEditProduct.tsx:269-321 | the form shows exactly when loaded, found and approved |
| VendorEditProduct.EditProductPage.constructor | src/pages/vendor/VendorEditProduct.tsx:89-99 | the status starts as approved and loading |
| VendorEditProduct.EditProductPage.FetchProduct | src/pages/vendor/VendorEditProduct.tsx:150-213 | loading always ends; no user goes to login; no vendor or product shows not-found; otherwise the form, colours and image come from the row |
| VendorEditProduct.EditProductPage.SetCurrentColor | src/pages/vendor/VendorEditProduct.tsx:572-578 | the colour picker and its text box set the pending colour |
| VendorEditProduct.EditProductPage.AddColor | src/pages/vendor/VendorEditProduct.tsx:109-120 | the colour state becomes AddColorTo of the old one |
| VendorEditProduct.EditProductPage.RemoveColor | src/pages/vendor/VendorEditProduct.tsx:123-125 | the colours lose that colour |
| VendorEditProduct.EditProductPage.CategoryChanged | src/pages/vendor/VendorEditProduct.tsx:140-149 | the choices follow the subcategory effect |
| VendorEditProduct.EditProductPage.DisplayImage | src/pages/vendor/VendorEditProduct.tsx:323 | a non-empty preview wins over the existing URL |
| VendorEditProduct.EditProductPage.RemoveImage | src/pages/vendor/VendorEditProduct.tsx:325-329 | file, preview and existing URL clear, so nothing shows |
| VendorEditProduct.EditProductPage.ImageChange | src/pages/vendor/VendorEditProduct.tsx:332-338 | a chosen file replaces file and preview; none changes nothing |
| VendorEditProduct.EditProductPage.OnSubmit | src/pages/vendor/VendorEditProduct.tsx:217-266 | a failed upload stops before the update; the update carries the form, the colours, the new or existing image URL and the update time stamp; success alerts and returns to the list |
| VendorRegister.IssuesAreFailedRules | src/pages/vendor/VendorRegister.tsx:10-21 | a rule is reported exactly when it fails |
| VendorRegister.FileCheckCases | src/pages/vendor/VendorRegister.tsx:44-64 | a file of another type, or over 5 MB, is refused with its message; an accepted file is kept |
| VendorRegister.SizeLimitInclusive | src/pages/vendor/VendorRegister.tsx:44-64 | exactly 5 MB is accepted, one byte more is refused |
| VendorRegister.CacPathShape | src/pages/vendor/VendorRegister.tsx:95 | the certificate path is "cac/", the user id, '.', and a dot-free extension |
| VendorRegister.RegisterEnabledIff | src/pages/vendor/VendorRegister.tsx:500 | the button is enabled exactly when the form is complete, a file is chosen and nothing is submitting |
| VendorRegister.RegisterPage.constructor | src/pages/vendor/VendorRegister.tsx:28-30 | no file, no file error, not submitting |
| VendorRegister.RegisterPage.HandleFileChange | src/pages/vendor/VendorRegister.tsx:44-64 | the file check decides whether the file or the error is kept |
| VendorRegister.RegisterPage.OnSubmit | src/pages/vendor/VendorRegister.tsx:66-124 | no file stops before any call; sign-up, upload and insert run in order, each failure stopping the rest with its message; success navigates |
| AdminVendorManagement.StatusChangeOnlyTouchesId | src/pages/admin/AdminVendorManagement.tsx:43-60 | a status change updates the vendors with the id and nothing else |
| AdminVendorManagement.VendorManagementPage.constructor | src/pages/admin/AdminVendorManagement.tsx:17-18 | no vendors, loading |
| AdminVendorManagement.VendorManagementPage.FetchVendors | src/pages/admin/AdminVendorManagement.tsx:25-40 | an error keeps the list and alerts; otherwise the list becomes the rows, or [] for a missing answer; loading ends |
| AdminVendorManagement.VendorManagementPage.UpdateStatus | src/pages/admin/AdminVendorManagement.tsx:43-60 | one update; the list changes only on success |
| AdminVendorManagement.VendorManagementPage.DeleteVendor | src/pages/admin/AdminVendorManagement.tsx:63-79 | a declined confirm sends nothing; the vendor leaves the list only on success |
| MessagesList.MessagesPage.constructor | src/pages/admin/MessagesList.tsx:5-6 | no messages, loading |
| MessagesList.MessagesPage.FetchMessages | src/pages/admin/MessagesList.tsx:13-29 | an error keeps the list and alerts; otherwise the list becomes the rows, or [] for a missing answer; loading ends |
| MessagesList.MessagesPage.HandleDelete | src/pages/admin/MessagesList.tsx:32-49 | a declined confirm sends nothing; the message leaves the list only on success |
| AdminProductForm.ChangedSpec | src/pages/admin/EditProduct.tsx:62-71 | a change sets the named field, clears the subcategory on a category change, and leaves the other fields |
| AdminProductForm.CategoryChangeClearsSubcategory | src/pages/admin/AddProduct.tsx:29-38 | a category change always leaves an empty subcategory |
| AdminProductForm.SelectorShownIffKnownCategory | src/pages/admin/EditProduct.tsx:205 | the subcategory select shows exactly for a known category |
| EditProduct.FormFromRow | src/pages/admin/EditProduct.tsx:38-48 | the filled form has the same fields as the empty one |
| EditProduct.FormFromRowFields | src/pages/admin/EditProduct.tsx:38-48 | null texts become '', the others are copied, numbers become their text |
| EditProduct.EditProductPage.constructor | src/pages/admin/EditProduct.tsx:7-20 | the route's id, an empty form of eight fields, loading and not saving |
| EditProduct.EditProductPage.FetchProduct | src/pages/admin/EditProduct.tsx:28-56 | a failed load alerts and returns to /admin; otherwise the form is filled from the row |
| EditProduct.EditProductPage.HandleChange | src/pages/admin/EditProduct.tsx:62-71 | the form becomes the changed form |
| EditProduct.EditProductPage.HandleSubmit | src/pages/admin/EditProduct.tsx:73-101 | one update carrying the form's texts and the update time stamp; success alerts and navigates, failure alerts |
| AddProduct.InitialFormFields | src/pages/admin/AddProduct.tsx:14-22 | seven fields, all empty but a stock of "100" |
| AddProduct.OrZero | src/pages/admin/AddProduct.tsx:73-82 | an empty number text reads as "0", any other text is kept |
| AddProduct.AddProductPage.constructor | src/pages/admin/AddProduct.tsx:8-22 | the initial form (all fields empty but stock "100"), no image, not loading or uploading |
| AddProduct.AddProductPage.HandleChange | src/pages/admin/AddProduct.tsx:29-38 | the form becomes the changed form |
| AddProduct.AddProductPage.HandleImageChange | src/pages/admin/AddProduct.tsx:41-46 | a chosen file replaces the previous one |
| AddProduct.AddProductPage.HandleSubmit | src/pages/admin/AddProduct.tsx:48-93 | a failed upload stops with its message; the insert carries the form and the image URL; success alerts and navigates |
| ProductFilter.SelectedSpec | src/pages/Shop.tsx:16-22 | 'All' shows every product; another selection shows exactly the products with that key, each as often as fetched, in order |
| ProductFilter.ProductNoun | src/pages/Shop.tsx:81-83 | "product" exactly for one, "products" otherwise |
| ProductFilter.GridCases | src/pages/Category.tsx:100-115 | once loaded, cards show exactly when something is shown, and otherwise the no-products message |
| Shop.InitialSelectionShowsAll | src/pages/Shop.tsx:10-22 | the initial 'All' shows every product |
| Shop.CategoryButtonShowsThatCategory | src/pages/Shop.tsx:16-22 | a category button shows exactly that category's products, each as often as fetched, in order |
| CategoryPage.ViewCases | src/pages/Category.tsx:14-15 | the not-found message shows exactly for an unknown name; a known one offers its subcategories |
| CategoryPage.InitialSelectionShowsAll | src/pages/Category.tsx:12-29 | the initial 'All' shows every product |
| CategoryPage.SubcategoryButtonShowsThatSubcategory | src/pages/Category.tsx:23-29 | another selection shows exactly that subcategory's products, each as often as fetched, in order |
| AdminAddBlog.Dashify | src/pages/admin/AdminAddBlog.tsx:24-32 | only [a-z0-9] and single dashes; a leading dash exactly for a leading separator |
| AdminAddBlog.SlugWellFormed | src/pages/admin/AdminAddBlog.tsx:24-32 | every slug is [a-z0-9] words joined by single dashes, with no dash at either end |
| AdminAddBlog.SlugKeepsAlphanumerics | src/pages/admin/AdminAddBlog.tsx:24-32 | the slug holds the lower-cased title's letters and digits, in order |
| AdminAddBlog.EmptySlug | src/pages/admin/AdminAddBlog.tsx:24-32 | the slug is empty exactly for a title without ASCII letters or digits |
| AdminAddBlog.SlugIdempotent | src/pages/admin/AdminAddBlog.tsx:24-32 | slugging a slug changes nothing |
| AdminAddBlog.AddBlogPage.constructor | src/pages/admin/AdminAddBlog.tsx:11-21 | empty title, slug and content, no image, not loading |
| AdminAddBlog.AddBlogPage.HandleTitleChange | src/pages/admin/AdminAddBlog.tsx:24-32 | the slug follows the title |
| AdminAddBlog.AddBlogPage.SetContent | src/pages/admin/AdminAddBlog.tsx:184 | the content becomes the typed text |
| AdminAddBlog.AddBlogPage.SelectImage | src/pages/admin/AdminAddBlog.tsx:162-166 | a chosen file replaces the cover; an empty selection keeps it |
| AdminAddBlog.AddBlogPage.FetchBlog | src/pages/admin/AdminAddBlog.tsx:61-83 | a loaded blog fills the fields as stored; a failed load only alerts |
| AdminAddBlog.AddBlogPage.HandleSubmit | src/pages/admin/AdminAddBlog.tsx:85-125 | an empty title or content is refused before any call; no user alerts; a failed upload or insert alerts with its message; success publishes and navigates |

## Left out

- `JSON.stringify` and `JSON.parse` text formats: the cart's stored value is a token sequence (`CartSnapshot.Stored`), and `JSON.parse` in `OrdersList.GetItemsArray` is a parameter.
- Floating point: prices and stock are integers. `parseFloat` and `parseInt` of form texts are left out. The admin forms send the texts; the update and insert records carry them.
- Number-to-text conversion: `EditProduct.FormFromRow` takes `toString` as a parameter.
- Unicode case mapping: `toLowerCase` and `toUpperCase` are modelled on ASCII letters only.
- React scheduling: state batching, effect timing and double clicks between two renders are left out. Checkout's `setTimeout` clear is a separate step, `RunDeferredClear`.
- Supabase internals: row-level security, `getPublicUrl` and auth sessions are left out. Each answer is a parameter.
- zod's email format check: `VendorRegister` takes its verdict as a boolean `emailOk`.
- `Date.now`, `new Date().toISOString()` and `URL.createObjectURL`: all are parameters (`stamp`, `now`, `previewUrl`).
- VendorRegister.IssuesAreFailedRules: string lengths are counted in characters (Unicode scalar values), whereas zod's `.min(n)` counts UTF-16 code units. A name made of one character outside the Basic Multilingual Plane, such as an emoji, passes the source's `min(2)` but fails the model's length rule.
- VendorEditProduct.IssuesAreFailedRules: the same difference in how string lengths are counted applies to productSchema's `.min(n)` rules.
- Fetching and listing reviews on the product page: left out. `SubmitReview` models the insert and the reset.
- VendorEditProduct keeps its own copy of the category table (src/pages/vendor/VendorEditProduct.tsx:25-66). It has the same entries as src/types/index.ts:46-87, so the page's `categories` constant is set to the shared table.
- Markup, styling, loading skeleton sizes and toasts beyond their text: left out.
- Behaviour of the code a reader may not expect, modelled as the code does it:
  - A saved cart that does not parse makes the provider throw, rather than fall back to an empty cart.
  - The pay button is guarded only by `isSubmitting`, so the form is not checked again (`Checkout.EmptiedFieldStillSubmitted`).
  - The empty-cart redirect runs on every render.
  - Vendor products are removed from the local list even when the delete fails.
  - The vendor products spinner stays on after a redirect.
- ProductDetail.ProductDetailPage.SubmitReview: a failed `getUser` call and a missing session are one case, `user == None`.

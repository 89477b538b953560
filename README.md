# ScentMart storefront, modelled in Dafny

ScentMart is a single-page perfume shop. Shoppers browse, filter, sort and
search a catalog, fill a cart, check out (cash on delivery only) and can
take a fragrance quiz. An administrator adds products, uploads their
pictures, imports products from a CSV template, exports a product feed,
runs a simulated catalog synchronisation and changes the shop's logo.

This project models the logic behind those screens:

- the application state and every handler of the top-level component (`store.dfy`);
- the catalog page's filters and sort orders (`catalog_view.dfy`), the best-sellers carousel (`best_sellers.dfy`) and the search dialog (`search.dfy`);
- the cart page (`cart_page.dfy`) and the checkout computations (`checkout.dfy`);
- the fragrance quiz (`quiz.dfy`) and the two-thumb price slider (`price_slider.dfy`);
- the admin pages:
  - the CSV import dialog (`csv_import.dfy`) and the CSV product feed (`csv_feed.dfy`);
  - the catalog synchronisation dialog (`catalog_sync.dfy`);
  - the image gallery (`image_uploader.dfy`) and the new-product form (`add_product.dfy`);
  - the logo page (`brand_identity.dfy`).

Shared pieces:

- `catalog.dfy`: the records.
- `seqs.dfy`: the JavaScript array operations.
- `sorting.dfy`: a stable sort with a comparator.
- `text.dfy`: `trim`, `toLowerCase`, `split`, `join` and number printing.
- `wrappers.dfy`: `Option`.

Stateful components are classes whose methods are the event handlers.
Computations (memos, filters, validation) are functions, with lemmas for
what they guarantee. Where the browser, the clock, `Math.random`, file
reading or a remote service supplies a value, that value is a parameter.

## Model

| member | source | states |
|---|---|---|
| Catalog.FamilyName | src/types.ts:9 | definition; meaning in CsvImport.FamilyRoundTrip and CsvImport.FamilyNamesDistinct |
| Catalog.GenderName | src/types.ts:21 | definition; meaning in CsvImport.GenderRoundTrip and CsvImport.LowerGenderName |
| Catalog.Ids | src/components/CatalogSyncModal.tsx:31 | the id set holds every perfume's id and only those |
| Catalog.IdsAppend | src/App.tsx:203-204 | the ids of a concatenation are the union of the ids of the parts |
| Seqs.Filter | src/App.tsx:150 | `filter` keeps only accepted elements and never lengthens the list; its order and multiplicities are in FilterSubseq, FilterCount and FilterUnique |
| Seqs.FilterCount | src/components/CatalogView.tsx:51 | `filter` keeps each accepted element with its multiplicity and drops every rejected one |
| Seqs.FilterSubseq | src/App.tsx:150 | `filter` keeps the accepted elements in the order the list has them |
| Seqs.SubseqMultiset | src/App.tsx:150 | an order-keeping selection holds no element more often than the list |
| Seqs.SubseqRefl | src/components/CatalogView.tsx:47 | a list is an order-keeping selection from itself (the copy `[...perfumes]`) |
| Seqs.SubseqTrans | src/components/CatalogView.tsx:50-60 | a selection from a selection is a selection from the original, so filters in a row keep the catalog's order |
| Seqs.FilterHead | src/components/CSVImportModal.tsx:55 | the first element a filter keeps is accepted and comes from the list |
| Seqs.FilterUnique | src/App.tsx:150 | order plus multiplicity pin a filter down: any order-keeping selection holding each accepted element as often as the list, and no rejected one, is the filter |
| Seqs.FilterFirst | src/components/CSVImportModal.tsx:55 | the first element a filter keeps is the first element of the list that is accepted |
| Seqs.FilterMembers | src/App.tsx:104 | an element is in the filtered list exactly when it is in the list and accepted |
| Seqs.FilterAppend | src/App.tsx:204 | filtering distributes over concatenation |
| Seqs.FilterFilter | src/components/CatalogView.tsx:50-60 | two filters in a row equal one filter by the conjunction |
| Seqs.FilterAll | src/components/CatalogView.tsx:60 | a filter that every element passes returns the list unchanged |
| Seqs.FilterSame | src/components/CatalogView.tsx:60 | filters by predicates that agree on the list's elements give the same list |
| Seqs.Take | src/components/SearchModal.tsx:41 | `slice(0, n)` is the prefix of length min(n, length) |
| Seqs.TakeMultiset | src/components/BestSellers.tsx:23 | `slice(0, n)` holds no element more often than the list |
| Seqs.SumAppend | src/App.tsx:214 | a `reduce` sum over a concatenation is the sum over the parts |
| Seqs.SumCons | src/components/CheckoutPage.tsx:43 | the `reduce` sum adds the first element to the sum of the rest |
| Seqs.NoDupCount | src/components/CatalogView.tsx:86-91 | a list without repeats holds each element at most once |
| Seqs.FilterNoDup | src/components/CatalogView.tsx:89 | a filter of a list without repeats has no repeats |
| Sorting.Insert | src/components/CatalogView.tsx:65 | inserting adds exactly the one element (as a multiset) |
| Sorting.InsertSorted | src/components/CatalogView.tsx:65 | under a consistent comparator, inserting into a sorted list keeps it sorted |
| Sorting.SortBy | src/components/BestSellers.tsx:22 | `sort` returns a permutation of its input that is sorted whenever the comparator is consistent; stability in SortStable and SortKeepsTies |
| Sorting.TiesOf | src/components/CatalogView.tsx:65-77 | definition (the elements the comparator puts level with `x`); meaning in SortKeepsTies |
| Sorting.InsertStable | src/components/CatalogView.tsx:65 | inserting keeps the order of any class of mutually tied elements, the inserted one in front |
| Sorting.SortStable | src/components/BestSellers.tsx:22 | the sort is stable: the elements of any class of mutually tied ones come out in their input order |
| Sorting.SortKeepsTies | src/components/CatalogView.tsx:63-79 | under a consistent comparator, the elements tying with any `x` keep their input order |
| Text.Trim | src/components/CSVImportModal.tsx:55 | `trim()` never lengthens; meaning in TrimSpec, TrimEmpty and TrimAround |
| Text.TrimStart | src/components/CSVImportModal.tsx:55 | definition (the leading half of `trim`); meaning in TrimSpec via Trim |
| Text.TrimEnd | src/components/CSVImportModal.tsx:55 | definition (the trailing half of `trim`); meaning in TrimSpec via Trim |
| Text.LeadingRun | src/components/CheckoutPage.tsx:44 | the leading run is whitespace and is followed by a non-whitespace character or the end |
| Text.TrailingRun | src/components/CheckoutPage.tsx:44 | the trailing run is whitespace and is preceded by a non-whitespace character or the start |
| Text.TrimSpec | src/components/CSVImportModal.tsx:55 | `trim()` removes exactly the leading and trailing whitespace runs; the result is empty exactly for an all-whitespace text and otherwise starts and ends with non-whitespace |
| Text.TrimEmpty | src/components/CSVImportModal.tsx:55 | a text trims to empty exactly when it is all whitespace (the blank-line test) |
| Text.TrimUnchanged | src/components/CSVImportModal.tsx:61 | a text without surrounding whitespace is its own trim |
| Text.LeadingPadded | src/components/CheckoutPage.tsx:44 | whitespace padded in front of a text that starts with non-whitespace is exactly the leading run |
| Text.TrailingPadded | src/components/CheckoutPage.tsx:44 | the same for whitespace padded behind |
| Text.TrimAround | src/components/CheckoutPage.tsx:44 | trimming removes any whitespace padding and nothing of the padded text |
| Text.LowerChar | src/components/CheckoutPage.tsx:44 | an ASCII capital becomes its small letter; a character that is neither an ASCII nor a Latin-1 capital is left as it is |
| Text.Lower | src/components/SearchModal.tsx:35 | the modelled lowering (ASCII and Latin-1 letters only) keeps the length |
| Text.LowerIndex | src/components/SearchModal.tsx:35 | each character of the lowered text is the lowered character |
| Text.LowerIdempotent | src/components/SearchModal.tsx:37 | lowering twice is lowering once |
| Text.LowerCharWhitespace | src/components/CheckoutPage.tsx:44 | lowering neither creates nor removes whitespace |
| Text.LeadingLower | src/components/CheckoutPage.tsx:44 | lowering keeps the leading whitespace run |
| Text.TrailingLower | src/components/CheckoutPage.tsx:44 | lowering keeps the trailing whitespace run |
| Text.LowerTrim | src/components/CheckoutPage.tsx:44 | trimming and lowering commute |
| Text.StartsWith | src/components/admin/ImageUploader.tsx:47 | definition; meaning in ImageUploader.Gallery.HandleAddFromUrl and Checkout.AssembleOrderMeaning |
| Text.Contains | src/components/SearchModal.tsx:37 | definition; meaning in ContainsPrefix and Search.SearchResults |
| Text.ContainsPrefix | src/components/SearchModal.tsx:37 | a text contains whatever it starts with |
| Text.IndexOf | src/components/admin/AddProductPage.tsx:70 | for a character the text holds, a position where it stands with no earlier occurrence |
| Text.Split | src/components/CSVImportModal.tsx:67 | `split` yields at least one piece and no piece holds the separator |
| Text.SplitAtSeparator | src/components/admin/AddProductPage.tsx:70 | a text with the separator splits into at least two pieces, the first being the text before it |
| Text.Join | src/components/admin/IntegrationsPage.tsx:43 | definition; meaning in JoinCons, JoinSnoc, SplitJoin and JoinSplit |
| Text.JoinCons | src/components/admin/IntegrationsPage.tsx:43 | joining a longer list puts the head, the separator and the joined rest |
| Text.JoinWithout | src/components/admin/IntegrationsPage.tsx:14 | a character in neither the pieces nor the separator is not in the join |
| Text.ConcatWithout | src/components/admin/IntegrationsPage.tsx:40 | a concatenation holds no character that neither part holds |
| Text.JoinThree | src/components/CSVImportModal.tsx:152 | three pieces joined have one separator between each pair of neighbours |
| Text.JoinSnoc | src/components/admin/IntegrationsPage.tsx:43 | joining one more element appends the separator and that element |
| Text.SplitJoin | src/components/CSVImportModal.tsx:67 | splitting a join of separator-free pieces gives the pieces back |
| Text.JoinSplit | src/components/CSVImportModal.tsx:67 | joining the pieces of a split gives the text back |
| Text.NatToString | src/components/CheckoutPage.tsx:56 | a natural number prints as a non-empty string of decimal digits |
| Text.IntToString | src/components/CheckoutPage.tsx:56 | an integer prints as a non-empty string of digits and minus signs |
| Text.NatToStringRoundTrip | src/components/CheckoutPage.tsx:56 | printing a number and reading the digits back gives the number |
| Store.FindIndex | src/App.tsx:120 | the first cart line holding this id, or the length when no line does |
| Store.FindItem | src/App.tsx:120 | `find` returns the first line with the id, and nothing exactly when no line has it |
| Store.MapQuantity | src/App.tsx:122-126 | the lines with the id get the computed quantity; every other line is kept as it was |
| Store.AddToCart | src/App.tsx:118-129 | a perfume already in the cart gets one unit more, capped at its stock; a new one is appended with quantity 1 |
| Store.RemoveFromCart | src/App.tsx:149-151 | exactly the lines of that perfume disappear and the others stay in their original order, each as often as before; a missing id changes nothing |
| Store.UpdateQuantity | src/App.tsx:133-147 | quantity zero or less removes the line, otherwise it becomes the request capped at the stock; a missing id changes nothing |
| Store.CartItemCount | src/App.tsx:214 | definition; meaning in CountAfterMap and AddToCartCount |
| Store.FilterKeepsDistinct | src/App.tsx:150 | filtering a cart with one line per perfume keeps one line per perfume |
| Store.AddToCartKeepsDistinct | src/App.tsx:118-129 | adding never creates a second line for a perfume |
| Store.UpdateQuantityKeepsDistinct | src/App.tsx:133-147 | updating never creates a second line for a perfume |
| Store.RemoveKeepsDistinct | src/App.tsx:149-151 | removing never creates a second line for a perfume |
| Store.UpdateQuantityAt | src/App.tsx:141-145 | a positive update sets that perfume's line to min(request, stock) and keeps the cart's length |
| Store.MapAbsent | src/App.tsx:122-126 | mapping over a cart without the id changes nothing |
| Store.DistinctTail | src/App.tsx:120 | the rest of a cart with one line per perfume has one line per perfume and none for the first line's perfume |
| Store.CountAfterMap | src/App.tsx:214 | after one line's quantity changes, the item count changes by exactly that difference |
| Store.AddToCartCount | src/App.tsx:118-129 | adding a new perfume raises the header's item count by one; adding one already in the cart raises it by the capped increase |
| Store.ReplacePerfume | src/App.tsx:183-186 | every catalog entry with the edited id becomes the edited perfume and all others stay, in place |
| Store.ReplaceKeepsIds | src/App.tsx:183-186 | editing a perfume never adds or drops an id |
| Store.AddNewPerfume | src/App.tsx:188-192 | the new product, stamped with the clock value as its id, goes in front of the unchanged catalog |
| Store.AddNewPerfumeIds | src/App.tsx:188-192 | the catalog's ids gain exactly the clock value, and a fresh clock value belongs to no other product |
| Store.ImportPerfumes | src/App.tsx:194-198 | the imported products come first, followed by the unchanged catalog |
| Store.ApplySync | src/App.tsx:200-207 | the updated perfumes come first, followed by the catalog perfumes whose ids were not updated, in catalog order and each as often as in the catalog |
| Store.ApplySyncIds | src/App.tsx:200-207 | a sync keeps every id and adds the updated ones; updates of catalog perfumes leave the id set as it was |
| Store.IdsOutside | src/App.tsx:203 | dropping the perfumes with given ids removes exactly those ids |
| Store.LoginAccepted | src/App.tsx:167 | definition; meaning in Store.Store.HandleLogin |
| Store.QuizCandidates | src/App.tsx:103 | the recommender is offered exactly the catalog perfumes in stock, in catalog order and with their multiplicity |
| Store.QuizMatches | src/App.tsx:104 | the quiz results are exactly the catalog perfumes whose names the recommender returned, in catalog order and with their multiplicity |
| Store.Store.constructor | src/App.tsx:33-56 | the app starts on the home view, with an empty cart, not logged in, with no order, no quiz result and the given catalog and logo |
| Store.Store.HandleAddToCart | src/App.tsx:118-129 | the cart becomes AddToCart of the old cart, keeping one line per perfume; a new perfume raises the header count by one |
| Store.Store.HandleUpdateQuantity | src/App.tsx:133-147 | the cart becomes UpdateQuantity of the old cart, keeping one line per perfume |
| Store.Store.HandleRemoveFromCart | src/App.tsx:149-151 | the cart becomes RemoveFromCart of the old cart |
| Store.Store.HandlePlaceOrder | src/App.tsx:153-164 | the order is kept, the cart is emptied and the thank-you view is shown |
| Store.Store.HandleLogin | src/App.tsx:166-175 | login succeeds exactly for admin/1234, opening the admin view and closing the dialog; a failure changes nothing of that |
| Store.Store.HandleLogout | src/App.tsx:177-181 | logout leaves admin mode and returns to the home view |
| Store.Store.HandleUpdatePerfume | src/App.tsx:183-186 | the catalog becomes ReplacePerfume of the old one |
| Store.Store.HandleAddNewPerfume | src/App.tsx:188-192 | the catalog becomes AddNewPerfume of the old one with the clock value |
| Store.Store.HandleImportPerfumes | src/App.tsx:194-198 | the imported products are prepended and the import dialog is closed |
| Store.Store.HandleApplySyncChanges | src/App.tsx:200-207 | the catalog becomes ApplySync of the old one |
| Store.Store.HandleUpdateLogo | src/App.tsx:209-212 | the logo becomes the given address |
| Store.Store.HandleQuizSubmit | src/App.tsx:98-111 | a list of names gives the matching catalog perfumes and clears the error; a failure gives the error and no results |
| Store.Store.ItemCount | src/App.tsx:214 | definition; meaning in Store.Store.HandleAddToCart, CountAfterMap and AddToCartCount |
| CatalogView.MinOf | src/components/CatalogView.tsx:33 | `Math.min` over a non-empty list is one of its elements and at most every element |
| CatalogView.MaxOf | src/components/CatalogView.tsx:34 | `Math.max` over a non-empty list is one of its elements and at least every element |
| CatalogView.Prices | src/components/CatalogView.tsx:32 | the prices, one per perfume, in order |
| CatalogView.PriceBounds | src/components/CatalogView.tsx:31-35 | an empty catalog gives 0 to 150000; otherwise the cheapest and dearest prices, both attained, bracketing every price |
| CatalogView.Compare | src/components/CatalogView.tsx:63-79 | definition; meaning in LeMeaning |
| CatalogView.Le | src/components/CatalogView.tsx:63-79 | definition; meaning in LeMeaning and ComparatorConsistent |
| CatalogView.LeMeaning | src/components/CatalogView.tsx:63-79 | what each comparator orders by: price up, price down, newest id first, or sales then rating |
| CatalogView.ComparatorConsistent | src/components/CatalogView.tsx:63-79 | each of the four comparators is total and transitive, so `sort` sorts by it |
| CatalogView.GenderPasses | src/components/CatalogView.tsx:50-52 | definition; meaning in FilterGender and ApplyFilters |
| CatalogView.FamilyPasses | src/components/CatalogView.tsx:55-57 | definition; meaning in FilterFamily and ApplyFilters |
| CatalogView.PricePasses | src/components/CatalogView.tsx:60 | definition; meaning in FilterPrice and ApplyFilters |
| CatalogView.Passes | src/components/CatalogView.tsx:50-60 | definition; meaning in ApplyFilters, FilteredAndSorted and InitialFiltersPassAll |
| CatalogView.PassesWith | src/components/CatalogView.tsx:50-60 | definition (Passes as a callback); meaning in ApplyFilters and FilteredAndSorted |
| CatalogView.ApplyFilters | src/components/CatalogView.tsx:47-60 | the filtered list holds exactly the perfumes passing all three filters, each as often as the catalog does, in catalog order: it is the catalog filtered by Passes |
| CatalogView.FilterGender | src/components/CatalogView.tsx:50-52 | an empty gender choice keeps everyone; otherwise only the chosen genders, with multiplicities, in their order |
| CatalogView.FilterFamily | src/components/CatalogView.tsx:55-57 | an empty family choice keeps everyone; otherwise only the chosen families, with multiplicities, in their order |
| CatalogView.FilterPrice | src/components/CatalogView.tsx:60 | only the perfumes whose price lies in the inclusive range, with multiplicities, in their order |
| CatalogView.SortedMeaning | src/components/CatalogView.tsx:63-79 | a list sorted by an option is ordered pairwise by that option's key |
| CatalogView.FilteredAndSorted | src/components/CatalogView.tsx:46-81 | the shown list is a permutation of the passing perfumes, all within the price range, ordered by the chosen sort, with perfumes the sort key ties in catalog order |
| CatalogView.InitialFilters | src/components/CatalogView.tsx:37-41 | definition; meaning in InitialFiltersPassAll |
| CatalogView.InitialFiltersPassAll | src/components/CatalogView.tsx:37-41 | with the initial filters every catalog perfume is shown |
| CatalogView.Toggle | src/components/CatalogView.tsx:86-91 | toggling flips the value's membership, touches no other value and appends a new value at the end |
| CatalogView.ToggleTwice | src/components/CatalogView.tsx:86-91 | toggling an absent value twice restores the list; on a list without repeats, toggling twice restores its contents |
| CatalogView.ToggleNoDup | src/components/CatalogView.tsx:86-91 | toggling never introduces a repeat |
| CatalogView.ApplyChange | src/components/CatalogView.tsx:84-95 | as written: a gender or family is toggled; the slider's pair is appended to the `priceRange` array and its two bounds stay unchanged |
| CatalogView.PriceReleaseIgnored | src/components/CatalogView.tsx:60 | after a slider release every perfume passes exactly when it did before, and the bounds handed back to the slider are the old ones |
| CatalogView.PriceReleaseOutsideRange | src/components/CatalogView.tsx:84-95 | example: range 100 to 500, released at 200 to 300, a perfume of price 400 is still shown |
| CatalogView.ApplyChangeFixed | src/components/CatalogView.tsx:84-95 | corrected: the slider's pair replaces the price range; toggles as in ApplyChange |
| CatalogView.PriceReleaseFixed | src/components/CatalogView.tsx:60 | after the corrected change a perfume passes exactly when its gender and family pass and its price lies in the slider's pair |
| CatalogView.Browser.constructor | src/components/CatalogView.tsx:37-44 | the page starts with the initial filters, sorted by relevance |
| CatalogView.Browser.HandleFilterChange | src/components/CatalogView.tsx:84-95 | as written: the filters become ApplyChange of the old ones, still without repeats |
| CatalogView.Browser.HandleFilterChangeFixed | src/components/CatalogView.tsx:84-95 | corrected: the filters become ApplyChangeFixed of the old ones, still without repeats |
| CatalogView.Browser.HandleClearFilters | src/components/CatalogView.tsx:97-99 | the filters return to the initial ones |
| CatalogView.Browser.SetSortBy | src/components/CatalogView.tsx:44 | the sort option becomes the chosen one |
| BestSellers.BySalesConsistent | src/components/BestSellers.tsx:22 | the sales comparator is total and transitive |
| BestSellers.Selling | src/components/BestSellers.tsx:21 | definition; meaning in TopSellers and TopSellersExcluded |
| BestSellers.TopSellers | src/components/BestSellers.tsx:19-24 | at most ten catalog perfumes, all with sales, in non-increasing order of sales, none more often than in the catalog |
| BestSellers.TopSellersExcluded | src/components/BestSellers.tsx:19-24 | a selling perfume left out only misses a full list of ten that each sold at least as much; the list is empty exactly when nothing sells |
| BestSellers.TopSellersTiesInCatalogOrder | src/components/BestSellers.tsx:21-23 | perfumes with equal sales are shown in catalog order, and those shown are the first such selling ones |
| Search.Matches | src/components/SearchModal.tsx:36-40 | definition; meaning in SearchResults and SearchComplete |
| Search.SearchResults | src/components/SearchModal.tsx:31-42 | a blank query gives nothing; otherwise at most ten matching perfumes, the first matches of the catalog in order |
| Search.SearchComplete | src/components/SearchModal.tsx:31-42 | every result is from the catalog, and a result list shorter than ten holds every matching perfume |
| Search.SearchCaseInsensitive | src/components/SearchModal.tsx:35 | lowering the query first gives the same results |
| Search.SearchBox.constructor | src/components/SearchModal.tsx:22 | the query starts empty |
| Search.SearchBox.SetQuery | src/components/SearchModal.tsx:22 | the query becomes what was typed |
| Search.SearchBox.OpenChanged | src/components/SearchModal.tsx:25-29 | closing the dialog clears the query; opening keeps it |
| Checkout.LineTotal | src/components/CheckoutPage.tsx:43 | definition; meaning in CartPage.LineTotals and CartPage.LineTotalsAddUp |
| CartPage.LineTotals | src/components/CartPage.tsx:63-66 | one amount per line, price times quantity |
| CartPage.LineTotalsAddUp | src/components/CartPage.tsx:23 | the line amounts shown add up to the subtotal shown |
| CartPage.Render | src/components/CartPage.tsx:23-95 | definition; meaning in RenderMeaning |
| CartPage.RenderMeaning | src/components/CartPage.tsx:23-95 | the empty-cart notice exactly for an empty cart; otherwise the line amounts, the subtotal and the total equal to the subtotal |
| CartPage.MinusRequest | src/components/CartPage.tsx:59 | definition; meaning in MinusOnLastUnitRemoves and ButtonsStep |
| CartPage.PlusRequest | src/components/CartPage.tsx:61 | definition; meaning in ButtonsStep |
| CartPage.MinusOnLastUnitRemoves | src/components/CartPage.tsx:59 | pressing minus on a line with one unit removes that perfume from the cart |
| CartPage.ButtonsStep | src/components/CartPage.tsx:59-61 | minus lowers a line with more than one unit by one; plus raises a line by one up to the stock |
| Checkout.Subtotal | src/components/CheckoutPage.tsx:43 | definition; meaning in SubtotalAppend, SubtotalNonNegative and CartPage.LineTotalsAddUp |
| Checkout.SubtotalAppend | src/components/CheckoutPage.tsx:43 | the subtotal of two carts together is the sum of their subtotals |
| Checkout.SubtotalNonNegative | src/components/CheckoutPage.tsx:43 | non-negative prices and quantities give a non-negative subtotal |
| Checkout.ShippingCost | src/components/CheckoutPage.tsx:44 | shipping is either free or the flat 10000 fee |
| Checkout.ShippingIgnoresCase | src/components/CheckoutPage.tsx:44 | the city's letter case does not change the shipping cost |
| Checkout.ShippingIgnoresPadding | src/components/CheckoutPage.tsx:44 | whitespace around the city does not change the shipping cost |
| Checkout.SantaMartaShipsFree | src/components/CheckoutPage.tsx:44 | Santa Marta in any case, with any surrounding whitespace, ships free |
| Checkout.OrderTotal | src/components/CheckoutPage.tsx:45 | definition; meaning in OrderTotalBounds |
| Checkout.OrderTotalBounds | src/components/CheckoutPage.tsx:45 | the total lies between the subtotal and the subtotal plus the fee |
| Checkout.AssembleOrder | src/components/CheckoutPage.tsx:47-59 | definition; meaning in AssembleOrderMeaning |
| Checkout.AssembleOrderMeaning | src/components/CheckoutPage.tsx:47-59 | the order carries the cart, the customer and the payment method; its amounts agree; its number is "SM-" followed by the clock value |
| Checkout.FormFilled | src/components/CheckoutPage.tsx:83-88 | definition; meaning in SubmitMeaning |
| Checkout.Submit | src/components/CheckoutPage.tsx:47-88 | definition; meaning in SubmitMeaning |
| Checkout.SubmitMeaning | src/components/CheckoutPage.tsx:47-88 | an order is placed exactly for a non-empty cart paid cash on delivery whose name, address, city, WhatsApp and valid e-mail are filled in, and it is the assembled order |
| Quiz.SetAnswer | src/components/QuizModal.tsx:43 | definition; meaning in SetAnswerMeaning |
| Quiz.SetAnswerMeaning | src/components/QuizModal.tsx:43 | choosing an option records it under its question and keeps the other answers |
| Quiz.IsFormComplete | src/components/QuizModal.tsx:53 | definition; meaning in IsFormCompleteMeaning |
| Quiz.IsFormCompleteMeaning | src/components/QuizModal.tsx:53 | the form is complete exactly when every question has a non-empty answer |
| Quiz.NextIndex | src/components/QuizModal.tsx:46-50 | definition; meaning in NextIndexMeaning |
| Quiz.NextIndexMeaning | src/components/QuizModal.tsx:46-50 | the question index moves forward by one until the last question and then stays, never leaving the questions |
| Quiz.OptionsNotEmpty | src/components/QuizModal.tsx:15-31 | no option text is empty |
| Quiz.QuizForm.constructor | src/components/QuizModal.tsx:34-40 | the quiz starts at the first question with no answers |
| Quiz.QuizForm.HandleSelectOption | src/components/QuizModal.tsx:42-51 | the chosen option is recorded, the index advances as NextIndex says, and a complete form stays complete |
| Quiz.QuizForm.HandleSubmit | src/components/QuizModal.tsx:55-60 | the answers are submitted exactly when the form is complete |
| Quiz.AnswerAllAndSubmit | src/components/QuizModal.tsx:42-60 | example: answering the three questions in turn makes the submission go out |
| PriceSlider.LowerThumb | src/components/PriceSlider.tsx:60 | definition; meaning in LowerThumbMeaning |
| PriceSlider.LowerThumbMeaning | src/components/PriceSlider.tsx:60 | the lower thumb stays strictly below the upper, lands where dragged when allowed and otherwise at the nearest allowed value |
| PriceSlider.UpperThumb | src/components/PriceSlider.tsx:75 | definition; meaning in UpperThumbMeaning |
| PriceSlider.UpperThumbMeaning | src/components/PriceSlider.tsx:75 | the upper thumb stays strictly above the lower, in the same way |
| PriceSlider.Slider.constructor | src/components/PriceSlider.tsx:15-18 | both thumbs and their refs start at the given range |
| PriceSlider.Slider.MoveLower | src/components/PriceSlider.tsx:59-64 | the lower thumb and its ref take LowerThumb's value, below the upper thumb |
| PriceSlider.Slider.MoveUpper | src/components/PriceSlider.tsx:74-79 | the upper thumb and its ref take UpperThumb's value, above the lower thumb |
| PriceSlider.Slider.HandleMouseUp | src/components/PriceSlider.tsx:47-49 | the reported range is the two thumbs' values |
| PriceSlider.Slider.Resync | src/components/PriceSlider.tsx:23-26 | a new range prop moves both thumbs |
| PriceSlider.DragBothThumbs | src/components/PriceSlider.tsx:47-79 | example: after dragging each thumb once, the reported range is strictly ordered |
| CatalogSync.Outcome | src/components/CatalogSyncModal.tsx:70-83 | definition; meaning in OutcomeMeaning |
| CatalogSync.OutcomeMeaning | src/components/CatalogSyncModal.tsx:70-83 | an update changes only price and stock, never below zero stock, and records both changes; other outcomes keep the perfume; an error carries its message |
| CatalogSync.SyncAll | src/components/CatalogSyncModal.tsx:65-95 | one result per selected perfume, in order, each from its own draw |
| CatalogSync.PerfumesOf | src/components/CatalogSyncModal.tsx:99 | the perfumes of the results, in order |
| CatalogSync.IsUpdated | src/components/CatalogSyncModal.tsx:99 | definition; meaning in UpdatedPerfumesMembers |
| CatalogSync.UpdatedPerfumes | src/components/CatalogSyncModal.tsx:99 | definition; meaning in UpdatedPerfumesMembers and UpdatedInResultOrder |
| CatalogSync.UpdatedPerfumesMembers | src/components/CatalogSyncModal.tsx:99 | a perfume is handed on exactly when an updated result carries it |
| CatalogSync.Selected | src/components/CatalogSyncModal.tsx:55 | definition; meaning in SelectedInOrder and SyncIdsFromCatalog |
| CatalogSync.SelectedInOrder | src/components/CatalogSyncModal.tsx:55 | the perfumes synchronised are the selected ones in catalog order, each as often as in the catalog |
| CatalogSync.PerfumesOfSubseq | src/components/CatalogSyncModal.tsx:99 | taking the perfumes of an order-keeping selection of results keeps their order |
| CatalogSync.UpdatedInResultOrder | src/components/CatalogSyncModal.tsx:99 | the perfumes handed on come in the order of the results |
| CatalogSync.SyncIdsFromCatalog | src/components/CatalogSyncModal.tsx:55-99 | every perfume handed on has the id of a selected catalog perfume |
| CatalogSync.ConfirmKeepsIds | src/components/CatalogSyncModal.tsx:98-102 | confirming a sync keeps the store's set of ids as it was |
| CatalogSync.ToggleId | src/components/CatalogSyncModal.tsx:38-48 | definition; meaning in ToggleIdMeaning |
| CatalogSync.ToggleIdMeaning | src/components/CatalogSyncModal.tsx:38-48 | toggling flips one id, no other, and twice is no change |
| CatalogSync.SyncSession.constructor | src/components/CatalogSyncModal.tsx:22-26 | the dialog starts at selection with nothing selected or processed |
| CatalogSync.SyncSession.Open | src/components/CatalogSyncModal.tsx:28-36 | opening selects every perfume and resets progress, results and message |
| CatalogSync.SyncSession.HandleToggleSelect | src/components/CatalogSyncModal.tsx:38-48 | the selection becomes ToggleId of the old one |
| CatalogSync.SyncSession.HandleSelectAll | src/components/CatalogSyncModal.tsx:50 | every catalog id becomes selected |
| CatalogSync.SyncSession.HandleDeselectAll | src/components/CatalogSyncModal.tsx:51 | nothing stays selected |
| CatalogSync.SyncSession.HandleStartSync | src/components/CatalogSyncModal.tsx:53-96 | the summary shows; with a selection the results are SyncAll of the selected perfumes, all counted as processed, with the completion message |
| CatalogSync.SyncSession.HandleConfirmChanges | src/components/CatalogSyncModal.tsx:98-102 | the store gets exactly the updated perfumes |
| CsvImport.HeaderNamesWithoutComma | src/components/CSVImportModal.tsx:17 | no template column name holds a comma |
| CsvImport.HeaderNamesDistinct | src/components/CSVImportModal.tsx:17 | the thirteen column names are distinct |
| CsvImport.SplitCsvHeaders | src/components/CSVImportModal.tsx:67 | splitting the template header at commas gives back the thirteen names |
| CsvImport.DropCR | src/components/CSVImportModal.tsx:55 | one carriage return at the end of a line is dropped, and only that |
| CsvImport.SplitLines | src/components/CSVImportModal.tsx:55 | the text splits into at least one line, none holding a line feed |
| CsvImport.NonBlankLines | src/components/CSVImportModal.tsx:55 | the kept lines are the lines that are not all whitespace, in file order and each as often as in the file |
| CsvImport.FirstNonBlankLine | src/components/CSVImportModal.tsx:55-61 | the line the header check reads is the first line of the file that is not blank |
| CsvImport.StripQuotes | src/components/CSVImportModal.tsx:75 | definition; meaning in StripQuotesSpec and StripQuotesWrapped |
| CsvImport.StripQuotesSpec | src/components/CSVImportModal.tsx:75 | one quote at each end goes, an unquoted value is kept, and at most two characters are removed |
| CsvImport.StripQuotesWrapped | src/components/CSVImportModal.tsx:75 | a quoted value loses exactly its quotes |
| CsvImport.ValueAt | src/components/CSVImportModal.tsx:75 | definition (`values[j] || ''`); meaning in CellMissing |
| CsvImport.Cell | src/components/CSVImportModal.tsx:75 | definition; meaning in CellMissing and RowOfColumns |
| CsvImport.BuildRow | src/components/CSVImportModal.tsx:71-79 | definition (the inner loop's record); meaning in BuildRowKeys, BuildRowAt and ParseRow |
| CsvImport.RowOf | src/components/CSVImportModal.tsx:71-79 | definition (one data line's record); meaning in RowOfColumns, RowOfKeys and Rows |
| CsvImport.BuildRowKeys | src/components/CSVImportModal.tsx:74-77 | the record has a key for each column processed and no other |
| CsvImport.BuildRowAt | src/components/CSVImportModal.tsx:74-77 | with distinct column names each column holds its own cell |
| CsvImport.RowOfColumns | src/components/CSVImportModal.tsx:71-79 | every data row holds all thirteen columns, a missing value being empty |
| CsvImport.RowOfKeys | src/components/CSVImportModal.tsx:71-79 | a row has no column but the thirteen |
| CsvImport.CellMissing | src/components/CSVImportModal.tsx:75 | a column past the end of a line is empty |
| CsvImport.Field | src/components/CSVImportModal.tsx:97 | definition; meaning in ClassifyRoute, ClassifySucceeds and BuildPerfume |
| CsvImport.Rows | src/components/CSVImportModal.tsx:71-79 | one record per data line, in order |
| CsvImport.FindFamily | src/components/CSVImportModal.tsx:133 | the found family's lowered name equals the value; nothing is found exactly when no family's does |
| CsvImport.FamilyOf | src/components/CSVImportModal.tsx:132-133 | an unmatched category falls back to Aromático; any other result matches the trimmed, lowered text |
| CsvImport.LowerGenderName | src/components/CSVImportModal.tsx:126 | the gender names lowered and trimmed |
| CsvImport.GenderOf | src/components/CSVImportModal.tsx:126-130 | definition; meaning in GenderRoundTrip and GenderEmpty |
| CsvImport.GenderRoundTrip | src/components/CSVImportModal.tsx:126-130 | each gender's own name is read back as that gender |
| CsvImport.GenderEmpty | src/components/CSVImportModal.tsx:126 | a missing gender is read as Unisex |
| CsvImport.FamilyNamesDistinct | src/components/CSVImportModal.tsx:133 | two families never have the same lowered name |
| CsvImport.FamilyRoundTrip | src/components/CSVImportModal.tsx:132-133 | each family's own name is read back as that family |
| CsvImport.JoinHead | src/components/CSVImportModal.tsx:152 | a join starts with its first piece |
| CsvImport.Notes | src/components/CSVImportModal.tsx:148-152 | definition; meaning in NotesParts, NotesFallbackIff and NotesAllGiven |
| CsvImport.NotesParts | src/components/CSVImportModal.tsx:148-152 | the notes line joins the labelled non-empty parts with " \| " |
| CsvImport.NotesFallbackIff | src/components/CSVImportModal.tsx:148-152 | the fallback text appears exactly when all three note columns are empty |
| CsvImport.NotesAllGiven | src/components/CSVImportModal.tsx:148-152 | with all three notes given, the line lists them in order with their labels |
| CsvImport.OrElse | src/components/CSVImportModal.tsx:123 | definition; meaning in BuildPerfume |
| CsvImport.BuildPerfume | src/components/CSVImportModal.tsx:123-156 | the product takes the row's name, image, stock, gender, family and notes and a fixed brand and volume, with id clock plus row index |
| CsvImport.RowLabel | src/components/CSVImportModal.tsx:100 | definition; meaning in ClassifyRoute, with the number printed as Text.NatToStringRoundTrip states |
| CsvImport.MissingSku | src/components/CSVImportModal.tsx:100 | definition; meaning in ClassifyRoute |
| CsvImport.DuplicateSku | src/components/CSVImportModal.tsx:104 | definition; meaning in ClassifyRoute |
| CsvImport.MissingName | src/components/CSVImportModal.tsx:110 | definition; meaning in ClassifyRoute |
| CsvImport.KnownName | src/components/CSVImportModal.tsx:114 | definition; meaning in ClassifyRoute |
| CsvImport.MissingImage | src/components/CSVImportModal.tsx:119 | definition; meaning in ClassifyRoute |
| CsvImport.ExistingNames | src/components/CSVImportModal.tsx:85 | definition; meaning in ValidateData and ImportModal.ProcessFile |
| CsvImport.Classify | src/components/CSVImportModal.tsx:99-121 | a row that passes every check becomes the built perfume; the routing of each check is in ClassifyRoute |
| CsvImport.Outcomes | src/components/CSVImportModal.tsx:96-121 | one outcome per row, each checked against the SKUs of the earlier rows |
| CsvImport.SeenBefore | src/components/CSVImportModal.tsx:86 | definition (the `csvSkus` set at row `i`); meaning in Outcomes, SeenBeforeStep and ValidateData's loop invariant |
| CsvImport.Record | src/components/CSVImportModal.tsx:100-157 | definition (one of the three `push` calls); meaning in TallyStep |
| CsvImport.Tally | src/components/CSVImportModal.tsx:88-121 | definition; meaning in TallyCounts and TallyStep |
| CsvImport.TallyCounts | src/components/CSVImportModal.tsx:88-121 | every row lands in exactly one of the three lists |
| CsvImport.Validation | src/components/CSVImportModal.tsx:84-160 | definition; meaning in ValidationCounts, ClassifySucceeds, ClassifyRoute and ValidateData |
| CsvImport.ValidationCounts | src/components/CSVImportModal.tsx:84-160 | the imported, skipped and failed counts add up to the number of rows |
| CsvImport.ClassifySucceeds | src/components/CSVImportModal.tsx:99-121 | a row is imported exactly when it has a SKU no earlier row had, a name not in the catalog and a main image |
| CsvImport.ClassifyRoute | src/components/CSVImportModal.tsx:99-121 | in the source's order: no SKU fails, an earlier row's SKU is skipped, no name fails, a name the catalog has in any case is skipped, no main image fails, each with its reason text; otherwise the row is built |
| CsvImport.DuplicateSkuSkipped | src/components/CSVImportModal.tsx:103-107 | a later row repeating a SKU is skipped |
| CsvImport.SuccessSkusDistinct | src/components/CSVImportModal.tsx:99-121 | no two imported rows share a SKU |
| CsvImport.ImportIdsIncrease | src/components/CSVImportModal.tsx:136 | with a clock that never runs backwards, imported rows get strictly increasing ids |
| CsvImport.TallyStep | src/components/CSVImportModal.tsx:96-121 | the lists after one more row are the earlier lists with that row's outcome pushed |
| CsvImport.SeenBeforeStep | src/components/CSVImportModal.tsx:107 | passing a row records its SKU when it has one |
| CsvImport.ValidateData | src/components/CSVImportModal.tsx:84-160 | the loop's lists equal Validation of the rows against the catalog's lowered names |
| CsvImport.CheckRow | src/components/CSVImportModal.tsx:96-121 | one row's outcome is Classify, and its SKU joins the seen SKUs when present |
| CsvImport.ParseRows | src/components/CSVImportModal.tsx:71-79 | every line after the header becomes its record, in order |
| CsvImport.ParseRow | src/components/CSVImportModal.tsx:73-77 | the record holds each column's cell |
| CsvImport.ParseAndValidate | src/components/CSVImportModal.tsx:54-82 | fewer than two non-blank lines and a wrong header are errors; otherwise the validated rows |
| CsvImport.ImportModal.constructor | src/components/CSVImportModal.tsx:21-22 | no error and no result |
| CsvImport.ImportModal.ProcessFile | src/components/CSVImportModal.tsx:35-52 | a non-CSV file and a failed read are errors; a read file gives the parse error or the validated result, never both |
| CsvImport.ImportModal.HandleReset | src/components/CSVImportModal.tsx:184-187 | error and result are cleared |
| CsvImport.ImportModal.HandleImportClick | src/components/CSVImportModal.tsx:189-193 | the imported products are handed on exactly when there is at least one |
| CsvFeed.FeedHeader | src/components/admin/IntegrationsPage.tsx:11-14 | definition; meaning in FeedEmpty and FeedSnoc |
| CsvFeed.NeedsQuotes | src/components/admin/IntegrationsPage.tsx:21 | definition; meaning in EscapeShape and EscapeRoundTrip |
| CsvFeed.DoubleQuotes | src/components/admin/IntegrationsPage.tsx:22 | doubling quotes never shortens the text |
| CsvFeed.UndoubleDouble | src/components/admin/IntegrationsPage.tsx:22 | undoing the quote doubling gives the text back |
| CsvFeed.DoubleQuotesChars | src/components/admin/IntegrationsPage.tsx:22 | doubling keeps every other character and exactly doubles the quotes |
| CsvFeed.Escape | src/components/admin/IntegrationsPage.tsx:18-25 | definition; meaning in EscapeRoundTrip, EscapeShape and EscapeChars |
| CsvFeed.EscapeRoundTrip | src/components/admin/IntegrationsPage.tsx:18-25 | a CSV reader reads an escaped value back as that value |
| CsvFeed.EscapeShape | src/components/admin/IntegrationsPage.tsx:18-25 | a value without comma, quote or line feed is written as it is; any other is quoted with doubled quotes |
| CsvFeed.EscapeChars | src/components/admin/IntegrationsPage.tsx:18-25 | escaping adds no character but quotes |
| CsvFeed.IdColumn | src/components/admin/IntegrationsPage.tsx:27 | definition; meaning in FieldsMeaning |
| CsvFeed.DescriptionText | src/components/admin/IntegrationsPage.tsx:29 | definition; meaning in FieldsMeaning |
| CsvFeed.LinkColumn | src/components/admin/IntegrationsPage.tsx:34 | definition; meaning in FieldsMeaning |
| CsvFeed.AvailabilityColumn | src/components/admin/IntegrationsPage.tsx:30 | definition; meaning in FieldsMeaning |
| CsvFeed.Fields | src/components/admin/IntegrationsPage.tsx:27-40 | a row has one value per header column |
| CsvFeed.FeedRow | src/components/admin/IntegrationsPage.tsx:40 | definition; meaning in RowColumns |
| CsvFeed.FeedRows | src/components/admin/IntegrationsPage.tsx:27 | one row per product, in catalog order |
| CsvFeed.Feed | src/components/admin/IntegrationsPage.tsx:10-44 | definition; meaning in FeedEmpty and FeedSnoc |
| CsvFeed.FeedEmpty | src/components/admin/IntegrationsPage.tsx:10-44 | an empty catalog gives the header line alone |
| CsvFeed.FeedSnoc | src/components/admin/IntegrationsPage.tsx:43 | one more product adds its row after a line feed |
| CsvFeed.FeedRowsSnoc | src/components/admin/IntegrationsPage.tsx:27 | the rows of one more product are the earlier rows plus its row |
| CsvFeed.LinesSnoc | src/components/admin/IntegrationsPage.tsx:43 | joining the header and one more row appends the separator and that row |
| CsvFeed.FieldsMeaning | src/components/admin/IntegrationsPage.tsx:27-40 | availability follows the stock, the condition is new, the SKU falls back to the id, the price is in COP, the link is the official address or the demo page, the image address is verbatim, and title, description (with its fallback text) and brand are escaped |
| CsvFeed.RowColumns | src/components/admin/IntegrationsPage.tsx:40 | without commas in the product's texts, splitting its row at commas gives back the ten columns |
| CsvFeed.FieldsWithoutComma | src/components/admin/IntegrationsPage.tsx:27-40 | without commas in the product's texts, no column holds a comma |
| CsvFeed.AllWithout | src/components/admin/IntegrationsPage.tsx:40 | a character missing from each of the ten columns is missing from all |
| CsvFeed.FixedColumnsWithoutComma | src/components/admin/IntegrationsPage.tsx:30-38 | the availability, condition, category and price columns hold no comma |
| ImageUploader.AcceptedUrl | src/components/admin/ImageUploader.tsx:47 | definition; meaning in ImageUploader.Gallery.HandleAddFromUrl and BrandIdentity.GalleryUrlsAreLogoUrls |
| ImageUploader.RemoveAt | src/components/admin/ImageUploader.tsx:86 | every image but the removed one stays, in order; an index past the end removes nothing |
| ImageUploader.RemoveKeepsPrimaryInRange | src/components/admin/ImageUploader.tsx:85-98 | removing an image keeps the main index on an image, or zero |
| ImageUploader.PrimaryAfterRemove | src/components/admin/ImageUploader.tsx:87-93 | definition; meaning in RemoveKeepsPrimaryInRange and RemoveKeepsPrimaryImage |
| ImageUploader.RemoveKeepsPrimaryImage | src/components/admin/ImageUploader.tsx:87-93 | removing another image keeps the same main image; removing the main one makes the first image main |
| ImageUploader.ParentView | src/components/admin/ImageUploader.tsx:16-22 | the parent gets the whole list and the main image, or empty when there are no images |
| ImageUploader.Gallery.constructor | src/components/admin/ImageUploader.tsx:10-14 | no images, main index zero, empty and hidden address box |
| ImageUploader.Gallery.UpdateParent | src/components/admin/ImageUploader.tsx:16-22 | the parent now has ParentView of the given list |
| ImageUploader.Gallery.SetUrlInput | src/components/admin/ImageUploader.tsx:13 | the address box holds what was typed |
| ImageUploader.Gallery.ToggleUrlInput | src/components/admin/ImageUploader.tsx:14 | the address box is shown or hidden |
| ImageUploader.Gallery.HandleAddFromUrl | src/components/admin/ImageUploader.tsx:46-56 | an http(s) address is appended, the box cleared and hidden and the parent told; anything else changes nothing |
| ImageUploader.Gallery.HandleSetPrimary | src/components/admin/ImageUploader.tsx:80-83 | the chosen image becomes main and the parent is told |
| ImageUploader.Gallery.HandleRemoveImage | src/components/admin/ImageUploader.tsx:85-98 | the image goes, the main index follows PrimaryAfterRemove, and the parent is told |
| ImageUploader.Gallery.HandleFileProcessing | src/components/admin/ImageUploader.tsx:24-44 | after every read finishes, all the uploaded images are appended and the parent is told; no files change nothing |
| AddProduct.SetNested | src/components/admin/AddProductPage.tsx:71-77 | definition (the spread of the nested object with one child set); meaning in ChangeNested (through ChangeInput) and NestedInputKeepsShape |
| AddProduct.ChangeInput | src/components/admin/AddProductPage.tsx:65-84 | definition (handleInputChange's updater); meaning in ChangeFlat, ChangeNested and ProductForm.HandleInputChange |
| AddProduct.InputValue | src/components/admin/AddProductPage.tsx:81 | a cleared number input is undefined, any other number input holds its number, and a text input holds its text |
| AddProduct.ChangeFlat | src/components/admin/AddProductPage.tsx:78-83 | an input without a dot sets its key and no other |
| AddProduct.ChangeNested | src/components/admin/AddProductPage.tsx:69-77 | a dotted input sets that child of the nested object, keeping its other children and every other key |
| AddProduct.DescriptionInput | src/components/admin/AddProductPage.tsx:70 | helper: the one dotted input name, "details.description", splits into "details" and "description" |
| AddProduct.ChangeImages | src/components/admin/AddProductPage.tsx:86-92 | the main image and list are replaced and every other key kept |
| AddProduct.PassesCheck | src/components/admin/AddProductPage.tsx:97-101 | definition; meaning in SavesExactly and ClearedPriceStoppedByBrowser |
| AddProduct.BrowserAllows | src/components/admin/AddProductPage.tsx:115-137 | definition; meaning in SavesExactly and ClearedPriceStoppedByBrowser |
| AddProduct.Saves | src/components/admin/AddProductPage.tsx:94-102 | definition; meaning in SavesExactly, InitialNotSaved and ProductForm.HandleSubmit |
| AddProduct.SavesExactly | src/components/admin/AddProductPage.tsx:97-101 | saving happens exactly for a name, a price above zero, a stock of zero or more, a main image and a non-negative original price |
| AddProduct.ClearedPriceStoppedByBrowser | src/components/admin/AddProductPage.tsx:97-101 | example: the script's own check lets a cleared price through; the required attribute stops it |
| AddProduct.InitialNotSaved | src/components/admin/AddProductPage.tsx:11-29 | the form as it opens is well typed and cannot be saved |
| AddProduct.FlatInputKeepsShape | src/components/admin/AddProductPage.tsx:78-83 | each undotted input keeps the texts texts and the numbers numbers or undefined |
| AddProduct.NestedInputKeepsShape | src/components/admin/AddProductPage.tsx:69-77 | the dotted input keeps the form well typed |
| AddProduct.UntypedKeyKeepsShape | src/components/admin/AddProductPage.tsx:71-77 | setting the nested details object keeps the form well typed |
| AddProduct.OnlyDottedInput | src/components/admin/AddProductPage.tsx:115-137 | the description is the form's only dotted input |
| AddProduct.ProductForm.constructor | src/components/admin/AddProductPage.tsx:11-29 | the form opens on the initial product |
| AddProduct.ProductForm.HandleInputChange | src/components/admin/AddProductPage.tsx:65-84 | the draft becomes ChangeInput of the old one and stays well typed |
| AddProduct.ProductForm.HandleImageChange | src/components/admin/AddProductPage.tsx:86-92 | the draft becomes ChangeImages of the old one |
| AddProduct.ProductForm.HandleSubmit | src/components/admin/AddProductPage.tsx:94-102 | the product is handed to `onSave` exactly when it Saves |
| BrandIdentity.AcceptedLogoUrl | src/components/admin/BrandIdentityPage.tsx:26 | definition; meaning in GalleryUrlsAreLogoUrls and BrandIdentity.LogoPage.HandleAddFromUrl |
| BrandIdentity.GalleryUrlsAreLogoUrls | src/components/admin/BrandIdentityPage.tsx:26 | every address the image gallery accepts is accepted as a logo |
| BrandIdentity.LogoPage.constructor | src/components/admin/BrandIdentityPage.tsx:11-12 | no pending logo and an empty address box |
| BrandIdentity.LogoPage.SetUrlInput | src/components/admin/BrandIdentityPage.tsx:12 | the address box holds what was typed |
| BrandIdentity.LogoPage.HandleFileLoaded | src/components/admin/BrandIdentityPage.tsx:18-20 | the read file becomes the pending logo |
| BrandIdentity.LogoPage.HandleAddFromUrl | src/components/admin/BrandIdentityPage.tsx:25-30 | an http or data address becomes the pending logo and clears the box; anything else changes nothing |
| BrandIdentity.HasPendingLogo | src/components/admin/BrandIdentityPage.tsx:33 | definition; meaning in LogoPage.HandleSaveChanges |
| BrandIdentity.LogoPage.SaveEnabled | src/components/admin/BrandIdentityPage.tsx:96 | definition; meaning in LogoPage.HandleSaveChanges |
| BrandIdentity.LogoPage.HandleSaveChanges | src/components/admin/BrandIdentityPage.tsx:32-37 | a pending logo is handed on and cleared; without one nothing is handed on; a logo is handed on exactly when the save button is enabled |
| BrandIdentity.UseLogoFromUrl | src/components/admin/BrandIdentityPage.tsx:25-37 | example: pasting an accepted address and saving makes it the store's logo |

## Left out

- Numbers are whole numbers: prices, stock and ids are `int`, and `parseFloat`, `parseInt` and `Number` are parameters (`Env`, `toNumber`). Fractional prices are not modelled. A NaN is `None` and reads as falsy.
- Date.now, Math.random and the results of FileReader are parameters.
  - The synchronisation's random draws are a function from the position of each perfume to its draw.
  - The sync's 200 ms interval, its 500 ms delay before the summary, the per-perfume message and the progress percentage are left out. Only the loop's state is modelled, as if the steps ran back to back.
- CsvImport: the row tokenizer (the quote-aware regex defined on src/components/CSVImportModal.tsx:69 and used on line 73) is a parameter.
  - CsvImport.ParseRow takes the cleaned-cell function.
  - The second image column and the SKU of an imported row are not stored, as in the source.
- Text.Lower lowers ASCII and Latin-1 letters only; the rest of Unicode case mapping is left out.
- Sorting.SortBy: `Array.prototype.sort` is modelled as a stable insertion sort on sequences, not in place. The page always copies the list before sorting, so nothing aliases it.
- The recommender service (src/services/geminiService.ts) is not part of this model. Store.QuizAnswer is its answer: names, or an error message.
- E-mail sending (src/services/emailService.ts) is not part of this model. Store.Store.HandlePlaceOrder takes whether it succeeded, and its result changes no modelled state.
- Toasts, alerts, scrolling and view-only state are presentation and are left out. So are:
  - currency formatting;
  - the slider's bar percentages;
  - the quiz's progress bar and its retry button;
  - the drag highlighting of the gallery.
- ImageUploader.Gallery.HandleFileProcessing: the reads are taken in the order they finished. Interleavings with other events during the reads are left out, and so are the stale closures they can capture.
- AddProduct: turning the saved form into a `Perfume` (`onSave` in the caller) is not modelled; the saved value is the form's draft.
  - The browser's own form checks are modelled explicitly: `required` on name, price and stock, and `min="0"` on the number inputs.
- Checkout.Submit: the browser's check of the `type="email"` input is a parameter (`emailValid`), and `required` is read as "not empty".
- ImageUploader.Gallery.HandleSetPrimary requires an index of a shown image, because the star buttons exist only for those.
- Quiz.QuizForm.HandleSelectOption requires the current question's key and one of its options, because those are the only buttons shown.
- PriceSlider.Slider.Resync leaves the refs as they were, as the source's effect does.
- Store.LoginScenario is a usage example with assertions and carries no contract of its own.

## Findings

| source | as written | input that shows it | evidently intended | confidence | as-written member | corrected member |
|---|---|---|---|---|---|---|
| src/components/CatalogView.tsx:86-91 | `priceRange` is an array, so a slider release takes the array branch: the pair `[lo, hi]` is appended (a fresh array is never `includes`d) and entries 0 and 1, which the price filter at line 60 reads, stay as they were; the slider then snaps back to them (src/components/PriceSlider.tsx:23-26) | range 100 to 500, thumbs released at 200 and 300: a perfume of price 400 is still shown | the pair replaces the price range (line 93) and the page shows only perfumes priced 200 to 300 | not executed | CatalogView.ApplyChange, CatalogView.PriceReleaseIgnored, CatalogView.PriceReleaseOutsideRange | CatalogView.ApplyChangeFixed, CatalogView.PriceReleaseFixed, CatalogView.Browser.HandleFilterChangeFixed |

# Restaurant back-office: a Dafny model of the page logic

The system is a web back-office for a restaurant. It has pages to enter
purchases, consumption, closing stock, payments, users, suppliers and store
items; dashboards that edit, apply and delete rows in place; recipe pages that
rescale ingredient lists; an invoice builder; and a sign-in form. Every page keeps
its state in component variables, changes that state in event handlers and
posts the result to one service through a shared request helper.

This project models the deterministic logic of those handlers and helpers:

- Pure computations are Dafny functions over datatypes. This covers rescaling,
  price formulas, totals, payloads, classifiers, filters and string helpers.
- A page or row component whose handlers update its state becomes a `class`.
  Its fields are the component's state variables, and its methods are the
  handlers, with `modifies` frames and postconditions giving the whole new state.
- The loops of the source stay loops: the three-row append of the entry pages,
  the key-by-key query merge, the recipe-dashboard counters, the sales summary
  and the grouping by base item.

A server reply (`count`, `id`, a fetched list), "today", `Date.now()` and
`Math.random()` are parameters of the handler that uses them.

Layout (all files under `src/`):

- `Js`: the JavaScript semantics the handlers rely on, plus `Outcome`, the
  result of a handler (refused with a message, cancelled, or a request sent).
  The semantics cover dynamic values and truthiness, the `or` fallback, numeric
  comparison with NaN, `trim`, ASCII case change, `includes`, `split` and `join`,
  `parseFloat`/`parseInt`/`Number` on decimal literals, `Math.round`, sums with
  NaN, `String(n)` and `padStart`.
- `Api`: `lib/api.js`.
- `DraftRows`: the draft-row list shared by every entry page. It covers
  appending three rows, updating by id, deleting by id, and filtering then
  mapping on submit.
- `StockItems`: the item lookup and price preview shared by the consumption and
  closing-stock pages.
- `SnapshotTable`: the snapshot-and-changed-set table shared by the metadata
  pages (products, store items, users, suppliers, departments).
- `Carousel`: the carousel position of the dashboards.
- One module per page or component: `AddItemPurchase`, `AddItemConsumption`,
  `AddClosingStock`, `AddUsers`, `AddStoreItems`, `AddSupplierPayment`,
  `AddSuppliers`, `BaseItemPurchase`, `CloneProductRecipe`,
  `UpdateProductRecipe`, `CreateInvoice`, `ManageProducts`, `ManageStoreItems`,
  `ManageUsers`, `NameTable` (suppliers and departments),
  `ManageOutgoingInvoices`, `ManageSupplierPayments`, `ManageItemPurchase`,
  `ManageItemConsumption`, `ManageSupplierPurchase`, `MenuItemsRecipe`,
  `StatementDashboard`, `SalesDashboard`, `ProductRecipeDetail`,
  `UploadBankStatement`, `LoginForm`, `MultiSelect`, `DashboardHeader`.

Where the source has a defect listed under "## Findings", the model keeps two
definitions side by side: one that follows the code as written, with a lemma
that exhibits the defect, and the corrected one, which the page classes use.
Agreement lemmas beside each pair say on which inputs the two coincide.

Numbers from the server are `real`, and the contents of input boxes are `string`.
Fields that can hold either are `Js.Val`. JavaScript's strict inequality on such
primitives is inequality of `Js.Val` values.

## Model

| member | source | states |
|---|---|---|
| DraftRows.AppendSequential | app/add-item-consumption/page.jsx:34-41 | three blank rows are appended with the ids that follow the last row's id (1, 2, 3 after an empty list), and the earlier rows are kept |
| DraftRows.AppendTimed | app/add-users/page.jsx:34-48 | three blank rows are appended with the clock reading and the two ids after it, and the earlier rows are kept |
| DraftRows.SequentialKeepsIncreasing | app/add-item-consumption/page.jsx:34-41 | numbering after the last id keeps increasing ids increasing |
| DraftRows.TimedKeepsUnique | app/add-users/page.jsx:34-48 | clock numbering keeps ids unique as long as the reading is later than every existing id |
| DraftRows.Update | app/add-users/page.jsx:54-56 | the rows with the id get the edit; every other row and every id are unchanged |
| DraftRows.UpdateKeepsIds | app/add-users/page.jsx:54-56 | an edit keeps the ids unique and increasing, and editing a missing id changes nothing |
| DraftRows.Delete | app/add-users/page.jsx:50-52 | the result holds exactly the rows whose id differs from the deleted one, all of them rows of the list; their order is kept (DeleteAppend) |
| DraftRows.DeleteAbsent | app/add-users/page.jsx:50-52 | deleting an id no row has changes nothing |
| DraftRows.DeleteIdempotent | app/add-users/page.jsx:50-52 | deleting the same id twice is deleting it once |
| DraftRows.DeleteKeepsIncreasing | app/add-users/page.jsx:50-52 | deletion keeps increasing ids increasing |
| DraftRows.DeleteKeepsUnique | app/add-users/page.jsx:50-52 | deletion keeps unique ids unique |
| DraftRows.DeleteUniqueRemovesAtMostOne | app/add-users/page.jsx:50-52 | with unique ids a deletion removes at most one row |
| DraftRows.Select | app/add-item-consumption/page.jsx:80-88 | at most one payload item per row, none exactly when no row passes the filter, and each item comes from a row that passes |
| DraftRows.SelectComplete | app/add-item-consumption/page.jsx:80-88 | every row that passes the filter contributes its payload item |
| DraftRows.SelectAppend | app/add-item-consumption/page.jsx:80-88 | filtering then mapping a concatenation is the concatenation of the two results, so row order is kept |
| DraftRows.SelectCons | app/add-item-consumption/page.jsx:80-88 | the first row contributes its item ahead of the rest exactly when it passes the filter |
| DraftRows.ValidFormSubmitsSomething | app/add-item-consumption/page.jsx:67-81 | when the validity test implies the submit filter, a valid form submits at least one item |
| DraftRows.DeleteAppend | app/add-users/page.jsx:50-52 | deleting from two lists joined is deleting from each and joining the results, and a single row is kept exactly when its id differs, so the kept rows stay in list order |
| Api.ApiBaseUrl | lib/api.js:1-3 | the service root without a trailing slash on localhost or an empty host name, with one otherwise |
| Api.WithSlash | lib/api.js:66 | the result ends in '/', a base that already does is kept, any other gets exactly one '/' appended |
| Api.SlashRun | lib/api.js:67 | counts exactly the leading '/' characters: all counted ones are '/', the next one is not |
| Api.StripLeadingSlashes | lib/api.js:67 | removes the whole run of leading slashes, so the result never starts with '/' |
| Api.StripIdempotent | lib/api.js:67 | stripping twice equals stripping once, and one more leading '/' changes nothing |
| Api.BuildUrl | lib/api.js:65-68 | whatever the host, the URL is the service root, one '/', then the endpoint without its leading slashes |
| Api.BuildUrlNormalises | lib/api.js:65-68 | the built URL is independent of the host name and of extra leading slashes, and always starts with the root and '/' |
| Api.MergeQueryParams | lib/api.js:71-79 | the loop sets every key of defaults and params; an explicit parameter wins, a default fills the rest; absolute `http` URLs keep their address |
| Api.DefaultParams | lib/api.js:47-63 | the keys are exactly outlet and userId; both are 0 without a stored user, else the user's outletId and id |
| Api.UserDepartments | lib/api.js:24-35 | null exactly when there is no user, no array or an empty one; otherwise the comma-join of the entries |
| Api.DepartmentsRoundTrip | lib/api.js:24-35 | when no entry holds a comma, splitting the joined list at ',' gives the departments back |
| Api.PrepareRequest | lib/api.js:85-102 | a GET carries data and defaults in its query and has no body; any other verb has an empty query and a body in which the data wins over the defaults; custom headers win over the JSON content type |
| Api.ReplyOf | lib/api.js:104-115 | a non-OK response fails with "API error: {status} - {text}"; an OK one with status 204 or no content type gives null; otherwise the parsed body |
| Api.FailedMessageNamesStatus | lib/api.js:107 | the status can be read back from the error message with `parseInt` after its fixed prefix |
| Api.DaySuffixIsEnglish | lib/api.js:124-134 | for every day below 100 the suffix is the English ordinal suffix: 'th' for 11-13, else 'st', 'nd', 'rd' by the last digit, else 'th' |
| Api.FormatDate | lib/api.js:118-136 | the label is the day of the month, its English ordinal suffix (th for 11 to 13, else st, nd, rd by the last digit, else th), a space, the month, a space and the last two digits of the year; it starts with the day, which `parseInt` reads back |
| Api.DayThenLabel | lib/api.js:136 | the day followed by the label part is the day, the suffix, a space, the month, a space and the year |
| Api.Label | lib/api.js:136 | the part after the day is exactly the two-letter suffix, a space, the month, a space and the two-digit year, each at its position |
| Api.SuffixIsLetters | lib/api.js:124-134 | every suffix has two characters and does not begin with a digit |
| MultiSelect.SafeSelected | components/MultiSelect.jsx:20 | a selection that is not an array is the empty list; an array is kept as it is |
| MultiSelect.RemoveAll | components/MultiSelect.jsx:24 | the value no longer occurs, every other value keeps its number of occurrences, and a list without the value is unchanged |
| MultiSelect.Toggle | components/MultiSelect.jsx:22-27 | the toggled value is present afterwards exactly when it was absent before; every other value keeps its count; an absent value is appended at the end |
| MultiSelect.ToggleTwice | components/MultiSelect.jsx:23-25 | toggling an absent value twice gives the original selection back |
| MultiSelect.RemoveLast | components/MultiSelect.jsx:24 | filtering out a value that was appended to a list without it gives that list back |
| MultiSelect.SelectAll | components/MultiSelect.jsx:34-36 | one entry per option, in option order: the option's value as a string |
| MultiSelect.Matches | components/MultiSelect.jsx:38 | an option is kept exactly when its stringified value is selected; never more entries than options; order and repeats are kept (MatchesAppend) |
| MultiSelect.MatchesAppend | components/MultiSelect.jsx:38 | the selected options of two lists joined are those of each list joined; a single option is kept exactly when its stringified value is selected |
| MultiSelect.DisplayText | components/MultiSelect.jsx:38-43 | the placeholder for no match, the label of the only match for one, "{n} selected" for two or more |
| MultiSelect.ClearedShowsPlaceholder | components/MultiSelect.jsx:20-40 | after clearing, or with a selection that is not an array, the placeholder shows |
| MultiSelect.SelectAllMatchesEvery | components/MultiSelect.jsx:34-38 | when every option's value is in the selected-all list, every option matches, in order |
| MultiSelect.SelectAllDisplay | components/MultiSelect.jsx:34-43 | after selecting all of two or more options the button reads "{number of options} selected" |
| DashboardHeader.FirstLetters | components/dashboard/DashboardHeader.jsx:17 | at most one letter per word: an empty word contributes nothing |
| DashboardHeader.Initials | components/dashboard/DashboardHeader.jsx:15-18 | 'U' without a name or with an empty one; otherwise the first letters of the space-separated words, each uppercased, the first two of them in order |
| DashboardHeader.SliceFirst | components/dashboard/DashboardHeader.jsx:17 | `slice(0, n)`: a prefix of the string of length min(n, length) |
| DashboardHeader.OneWord | components/dashboard/DashboardHeader.jsx:15-18 | a one-word name gives its first letter, uppercased |
| DashboardHeader.TwoWords | components/dashboard/DashboardHeader.jsx:15-18 | a two-word name gives the two first letters, uppercased |
| Carousel.Clamp | app/manage-supplier-payments/page.jsx:177-179 | the new position lies in 0 .. max(0, count - perView); an in-range move is taken as it is, one below goes to 0, one above goes to the last position |
| Carousel.Move | app/manage-supplier-purchase/page.jsx:282-293 | without cards the position does not change; with cards it ends in range |
| Carousel.MoveFourPerView | app/manage-item-purchase/page.jsx:182-185 | the item-purchase carousel's expression is the same clamp with four cards per view |
| Carousel.ForwardBack | app/manage-supplier-payments/page.jsx:170-181 | moving forward and then back from an interior position returns to it |
| MenuItemsRecipe.BandOf | app/menu-items-recipe-dashboard/page.jsx:71-74 | red exactly above 40, orange exactly above 30 and not above 40, green exactly above 0 and not above 30, none otherwise (a missing efficiency counts as 0) |
| MenuItemsRecipe.CountBand | app/menu-items-recipe-dashboard/page.jsx:72-74 | a band never holds more entries than were loaded |
| MenuItemsRecipe.CountWithRecipe | app/menu-items-recipe-dashboard/page.jsx:69 | the entries with a positive making cost are at most all entries |
| MenuItemsRecipe.ComputeStats | app/menu-items-recipe-dashboard/page.jsx:65-83 | the loop counts every entry once in total, each band by its definition, and `withoutRecipe` as total minus the entries with a positive making cost |
| MenuItemsRecipe.BandsPartition | app/menu-items-recipe-dashboard/page.jsx:71-82 | the three coloured counts add up to at most the number of entries, and 0 <= withoutRecipe <= total |
| MenuItemsRecipe.StatsBounded | app/menu-items-recipe-dashboard/page.jsx:77-83 | for the stats the loop produces, green + orange + red <= total and 0 <= withoutRecipe <= total |
| MenuItemsRecipe.RowClass | app/menu-items-recipe-dashboard/page.jsx:92-97 | the row colour is the colour of the entry's efficiency band, by the same thresholds as the counters |
| MenuItemsRecipe.Efficiency | app/menu-items-recipe-dashboard/page.jsx:71 | definition, no contract of its own: the product's efficiency or 0 when it is falsy; BandOf states the band it falls in |
| MenuItemsRecipe.ClassOf | app/menu-items-recipe-dashboard/page.jsx:92-97 | definition, no contract of its own: the colour of each band; RowClass states that the row colour is the colour of the entry's band |
| MenuItemsRecipe.HasRecipe | app/menu-items-recipe-dashboard/page.jsx:69 | definition, no contract of its own: a product with a making cost above 0; CountWithRecipe and StatsBounded state the counts it gives |
| StatementDashboard.Filter | app/statement-dashboard/page.jsx:83-89 | a row is kept exactly when its lowercased cell contains every non-empty column filter; the kept rows are a subsequence of the loaded ones, in order and with repeats (FilterAppend) |
| StatementDashboard.FilterAppend | app/statement-dashboard/page.jsx:83-89 | filtering two lists joined gives the two filtered lists joined; a single row is kept exactly when it passes every active filter |
| StatementDashboard.SubSeqSkip | app/statement-dashboard/page.jsx:83 | dropping a leading row keeps the subsequence relation |
| StatementDashboard.NoFilterKeepsAll | app/statement-dashboard/page.jsx:84-85 | with every filter empty, all rows are shown in their order |
| StatementDashboard.KeepRefines | app/statement-dashboard/page.jsx:84-87 | a row passing filters that extend another set of filters passes that set too |
| StatementDashboard.RefiningFilters | app/statement-dashboard/page.jsx:76-89 | adding a column filter or typing more into one can only remove rows, never reorder them |
| StatementDashboard.Page.constructor | app/statement-dashboard/page.jsx:24-36 | dates and type from the URL, else a week ago, today and no type; no data and no filters |
| StatementDashboard.Page.LoadRequest | app/statement-dashboard/page.jsx:38-52 | refused with "Please select both start and end dates" exactly when a date is empty; otherwise the query carries both dates, the type and the entities |
| StatementDashboard.Page.Load | app/statement-dashboard/page.jsx:38-68 | the data is replaced by the returned list only when the request went out |
| StatementDashboard.Page.ColumnFilter | app/statement-dashboard/page.jsx:76-81 | the column's filter becomes the lowercased value and every other column keeps its filter |
| StatementDashboard.Page.ClearFilters | app/statement-dashboard/page.jsx:70-74 | the type and all column filters are cleared; the reload in the same click still uses the state from before the reset |
| StatementDashboard.FilterIgnoresCase | app/statement-dashboard/page.jsx:79-86 | a filter typed in capitals keeps exactly the rows the same filter in small letters keeps |
| StatementDashboard.FormatCurrency | app/statement-dashboard/page.jsx:91-93 | empty exactly for a falsy value; otherwise the three characters the literal holds before the amount (U+00E2 U+201A U+00B9, the rupee sign's UTF-8 bytes read as Windows-1252) and the grouped `parseInt` of the value |
| StatementDashboard.Keep | app/statement-dashboard/page.jsx:83-87 | definition, no contract of its own: every non-empty column filter is contained in the lowercased cell; Filter, KeepRefines and FilterIgnoresCase state its properties |
| StatementDashboard.CellText | app/statement-dashboard/page.jsx:85 | a missing or falsy cell reads as empty; a text cell reads as itself; a non-zero number reads as its `String()` form |
| StatementDashboard.Page.FilteredData | app/statement-dashboard/page.jsx:83-88 | the shown rows are exactly the loaded rows that pass the current column filters, kept in order |
| SalesDashboard.MissingSalesCountZero | app/sales-dashboard/page.jsx:116-120 | an entry without sales adds 0 to each of the four totals |
| SalesDashboard.CalculateSummary | app/sales-dashboard/page.jsx:109-124 | the loop's four running totals are the sums over the list of the `parseInt` of each field, a falsy field counting as 0 |
| SalesDashboard.EmptySummary | app/sales-dashboard/page.jsx:23-28 | an empty list gives four zero totals, the dashboard's starting summary (also lines 109-124) |
| SalesDashboard.SummaryAppend | app/sales-dashboard/page.jsx:115-121 | each total over two lists together is the sum of the two lists' totals |
| SalesDashboard.Page.constructor | app/sales-dashboard/page.jsx:13-45 | both dates come from the URL, else yesterday; no selection, no data, zero totals |
| SalesDashboard.Page.LoadRequest | app/sales-dashboard/page.jsx:78-93 | refused with "Please select both start and end dates" exactly when a date is empty; otherwise the dates and the comma-joined selections |
| SalesDashboard.Page.Load | app/sales-dashboard/page.jsx:78-107 | when the request goes out, the stored list and the summary both come from the returned list; otherwise nothing changes |
| SalesDashboard.Page.ClearFilters | app/sales-dashboard/page.jsx:126-131 | the three selections are emptied; the reload in the same click still sends the selections from before |
| SalesDashboard.Summarize | app/sales-dashboard/page.jsx:109-124 | definition, no contract of its own: the four sums over the list of the parsed fields; CalculateSummary computes it with its loop, EmptySummary and SummaryAppend state its properties |
| SalesDashboard.SalesOf | app/sales-dashboard/page.jsx:116 | definition, no contract of its own: the entry's sales or an empty record; MissingSalesCountZero states what a missing one counts |
| SalesDashboard.Count | app/sales-dashboard/page.jsx:117-120 | a falsy field counts 0; a number counts its truncation; any numeric result is a whole number |
| SalesDashboard.NetSales | app/sales-dashboard/page.jsx:117 | definition, no contract of its own: Count of the net sales; Count and MissingSalesCountZero state its properties |
| SalesDashboard.Orders | app/sales-dashboard/page.jsx:118 | definition, no contract of its own: Count of the orders; Count and MissingSalesCountZero state its properties |
| SalesDashboard.ItemsSold | app/sales-dashboard/page.jsx:119 | definition, no contract of its own: Count of the items sold; Count and MissingSalesCountZero state its properties |
| SalesDashboard.Discount | app/sales-dashboard/page.jsx:120 | definition, no contract of its own: Count of the discount; Count and MissingSalesCountZero state its properties |
| ProductRecipeDetail.Key | app/product-recipe-detail/page.jsx:63 | the group name is never empty: a missing or empty base-item name becomes 'Unknown' |
| ProductRecipeDetail.Group | app/product-recipe-detail/page.jsx:62-68 | a group holds only lines of the input with that name, never more lines than the input |
| ProductRecipeDetail.GroupOfAbsentKey | app/product-recipe-detail/page.jsx:64-66 | a name no line carries has an empty group, which is why a new group starts empty |
| ProductRecipeDetail.GroupByBaseItem | app/product-recipe-detail/page.jsx:59-71 | the loop makes one group per name that occurs, each holding exactly the lines with that name in input order |
| ProductRecipeDetail.SumOverGroupsStep | app/product-recipe-detail/page.jsx:67 | pushing one more line adds its value to its own group's sum and nothing to any other |
| ProductRecipeDetail.GroupsPartition | app/product-recipe-detail/page.jsx:59-71 | every line lands in exactly one group: any quantity summed over the groups equals its sum over all lines |
| ProductRecipeDetail.EmptyGroups | app/product-recipe-detail/page.jsx:60 | without lines every group sums to 0 |
| ProductRecipeDetail.SumOfOnes | app/product-recipe-detail/page.jsx:80 | counting by summing 1 per line gives the number of lines |
| ProductRecipeDetail.GroupSizes | app/product-recipe-detail/page.jsx:59-80 | the group sizes add up to the number of ingredient lines |
| ProductRecipeDetail.MasterRow | app/product-recipe-detail/page.jsx:131-132 | a master row is found exactly when some line has baseItemId === itemId, and the one found is the first such line of the group |
| ProductRecipeDetail.ChildRows | app/product-recipe-detail/page.jsx:133 | a line of the group is a child exactly when it is not a master line; the children keep the group's order and repeats (ChildRowsAppend) |
| ProductRecipeDetail.ChildRowsAppend | app/product-recipe-detail/page.jsx:133 | the children of two lists joined are the children of each joined; a single line is a child exactly when it is not a master line |
| ProductRecipeDetail.MasterChildSplit | app/product-recipe-detail/page.jsx:131-133 | children and master lines together are the group, as a multiset, and their counts add up |
| ProductRecipeDetail.OneMaster | app/product-recipe-detail/page.jsx:131-136 | with exactly one master line the group is that line plus its children |
| ProductRecipeDetail.MastersOfOne | app/product-recipe-detail/page.jsx:132 | with exactly one master line, the first master found is the only one |
| ProductRecipeDetail.NoMasters | app/product-recipe-detail/page.jsx:131 | a group without master lines has no master line to show |
| ProductRecipeDetail.Toggled | app/product-recipe-detail/page.jsx:73-78 | the toggled group's flag flips (a missing flag counts as expanded), every other flag is kept |
| ProductRecipeDetail.ToggleTwice | app/product-recipe-detail/page.jsx:73-78 | toggling a group twice restores whether it is collapsed |
| ProductRecipeDetail.TotalOverGroups | app/product-recipe-detail/page.jsx:80-81 | with every price a number, the total is a number and equals the sum of the groups' totals |
| ProductRecipeDetail.TotalIsSum | app/product-recipe-detail/page.jsx:81 | with every price a number, the reduce gives the plain sum of the prices |
| ProductRecipeDetail.Page.constructor | app/product-recipe-detail/page.jsx:13-17 | no ingredients, no groups and no collapsed flags |
| ProductRecipeDetail.Page.LoadIngredients | app/product-recipe-detail/page.jsx:41-57 | the stored list is the returned one and the groups are exactly its grouping |
| ProductRecipeDetail.Page.ToggleGroup | app/product-recipe-detail/page.jsx:73-78 | the collapsed flags become the toggled map |
| ProductRecipeDetail.MasterLines | app/product-recipe-detail/page.jsx:131-133 | definition, no contract of its own: the group's master lines in order; MasterChildSplit shows that they and ChildRows partition the group |
| ProductRecipeDetail.TotalPrice | app/product-recipe-detail/page.jsx:81 | definition, no contract of its own: the NaN-aware sum of the parsed prices of every line; TotalIsSum and TotalOverGroups state its value |
| CreateInvoice.MaxId | app/create-invoice/page.jsx:172 | `Math.max(...ids, 0)`: at least 0 and at least every id, and either 0 or the id of some line |
| CreateInvoice.WithNewItem | app/create-invoice/page.jsx:171-174 | one new line (quantity 1, price 0, total 0) is appended with the largest id plus one, so distinct ids stay distinct |
| CreateInvoice.LineTotal | app/create-invoice/page.jsx:189 | the line total is a number exactly when both parsed factors (missing ones as 0) are numbers, and then it is their product |
| CreateInvoice.EditLine | app/create-invoice/page.jsx:184-196 | the edited field takes the typed value; the total is recomputed only when the quantity or the price changed |
| CreateInvoice.EditKeepsTotalled | app/create-invoice/page.jsx:186-191 | a line whose total is its quantity times its price stays so after any edit |
| CreateInvoice.Percent | app/create-invoice/page.jsx:200-201 | a GST amount is a number exactly when its rate is, and then amount·100 = subtotal·rate |
| CreateInvoice.CalculateTotals | app/create-invoice/page.jsx:198-205 | the subtotal sums the line totals (NaN counts 0); each GST amount is its percentage; the grand total is a number exactly when both rates are, and then total·100 = subtotal·(100 + sgst + cgst) |
| CreateInvoice.SubtotalNonNegative | app/create-invoice/page.jsx:199 | non-negative line totals give a non-negative subtotal |
| CreateInvoice.SubtotalAfterAdd | app/create-invoice/page.jsx:171-199 | adding a line leaves the subtotal unchanged |
| CreateInvoice.EmptiedPricePasses | app/create-invoice/page.jsx:222 | as written, a line whose price box was emptied passes the price check, with line total 0 (see Findings) |
| CreateInvoice.PriceCheckIff | app/create-invoice/page.jsx:222-226 | the corrected check passes exactly when every price parses to a number above 0, and it rejects everything the written check rejects |
| CreateInvoice.DetailsOf | app/create-invoice/page.jsx:149-155 | each shown customer field is the customer's value or '' |
| CreateInvoice.Find | app/create-invoice/page.jsx:147 | `find` by strict id equality: the first customer with that id, or none when no customer has it |
| CreateInvoice.YearDigits | app/create-invoice/page.jsx:159 | at most two digits, exactly two for a year from 10 on |
| CreateInvoice.Padded | app/create-invoice/page.jsx:160-162 | `padStart` with '0': all digits, at least the width, exactly the width when the number fits |
| CreateInvoice.InvoiceNumber | app/create-invoice/page.jsx:157-163 | `INV-{customer}-{yy}{mm}{dd}-{rrr}` with a three-digit random part |
| CreateInvoice.InvoiceNumberParts | app/create-invoice/page.jsx:159-163 | for a calendar date the date part has six digits, and the random part has three digits that read back as the random number |
| CreateInvoice.PaddedParses | app/create-invoice/page.jsx:160-162 | a zero-padded number reads back as itself |
| CreateInvoice.ZeroPadValue | app/create-invoice/page.jsx:160-162 | padding a digit string with zeros keeps its value |
| CreateInvoice.NatToStringLength | app/create-invoice/page.jsx:159 | a number from 10 on has at least two digits |
| CreateInvoice.NatToStringBound | app/create-invoice/page.jsx:160-162 | a number below 10^width has at most `width` digits |
| CreateInvoice.LeadingZeros | app/create-invoice/page.jsx:160-162 | leading zeros do not change a digit string's value |
| CreateInvoice.AllZeros | app/create-invoice/page.jsx:160-162 | a string of zeros has value 0 |
| CreateInvoice.SavedLines | app/create-invoice/page.jsx:277-282 | one saved line per item, with its description, quantity, price and total |
| CreateInvoice.InvoiceDataOf | app/create-invoice/page.jsx:271-288 | the saved amounts are the subtotal, both GST amounts together and the total, so final = total + tax when it is a number; status 'NONE' is saved as null |
| CreateInvoice.Page.constructor | app/create-invoice/page.jsx:21-66 | one blank line with id 1, no customer, GST rates of 5, status PENDING, today's and the due date |
| CreateInvoice.Page.AddItem | app/create-invoice/page.jsx:171-174 | the items become the list with one new line, and ids stay distinct |
| CreateInvoice.Page.DeleteItem | app/create-invoice/page.jsx:176-182 | the last remaining line is refused with "You need at least one item"; otherwise the line with that id is removed, and at least one line remains |
| CreateInvoice.Page.UpdateItem | app/create-invoice/page.jsx:184-196 | only the line with the id is edited, by EditLine |
| CreateInvoice.Page.CustomerChange | app/create-invoice/page.jsx:143-169 | clearing the customer clears the details and the number; a found customer sets both; an unknown id keeps them |
| CreateInvoice.Page.SetRates | app/create-invoice/page.jsx:401-410 | the rates hold `parseFloat` of the typed text |
| CreateInvoice.Page.Generate | app/create-invoice/page.jsx:209-299 | as intended (corrected price check, see Findings): refuses without a customer, then without a described line, then with a price that is not a number above 0, each with its message; then fails with 'Failed to generate invoice' unless the PDF step completes; sends the invoice record exactly when all of these pass |
| CreateInvoice.HasInvalidPriceAsWritten | app/create-invoice/page.jsx:222 | definition, no contract of its own: some price parses to a number that is at most 0, so a price that does not parse is not caught; EmptiedPricePasses shows the gap |
| CreateInvoice.HasInvalidPrice | app/create-invoice/page.jsx:222-224 | definition, no contract of its own: some price is not a number above 0, the check the message describes; Page.Generate uses it |
| CreateInvoice.PriceChecksAgreeOnNumbers | app/create-invoice/page.jsx:222 | when every price parses, the corrected and the written checks agree, and they can differ only through a price that does not parse |
| CreateInvoice.Subtotal | app/create-invoice/page.jsx:199 | definition, no contract of its own: the sum of the parsed line totals with NaN counting 0; SubtotalNonNegative and SubtotalAfterAdd state its properties |
| CreateInvoice.HasDescribedItem | app/create-invoice/page.jsx:216 | definition, no contract of its own: some line has a description that is not blank after trimming; Page.Generate states the refusal when none has |
| CloneProductRecipe.PackSize | app/clone-product-recipe/page.jsx:72-95 | the item's own pack size when it is present and not 0, else the line's unit quantity |
| CloneProductRecipe.PriceOf | app/clone-product-recipe/page.jsx:73-96 | the price is a number exactly when the quantity is, and then price · pack size = quantity · unit price |
| CloneProductRecipe.Scaled | app/clone-product-recipe/page.jsx:70 | a NaN quantity stays NaN; a number is multiplied by the factor |
| CloneProductRecipe.WithQuantity | app/clone-product-recipe/page.jsx:75-102 | only quantity and price change, the pack size is kept, and the new line is priced from its quantity |
| CloneProductRecipe.Adjust | app/clone-product-recipe/page.jsx:69-80 | every line gets its quantity times the factor, without rounding, and the price of that quantity |
| CloneProductRecipe.WithQuantityForgetsPrice | app/clone-product-recipe/page.jsx:73 | the new price does not depend on the price the line had |
| CloneProductRecipe.AdjustCompounds | app/clone-product-recipe/page.jsx:66-84 | applying multiplier f and then g is applying f·g once |
| CloneProductRecipe.AdjustInverse | app/clone-product-recipe/page.jsx:66-84 | multiplying by f and then by 1/f restores every quantity, and the whole recipe when it was priced |
| CloneProductRecipe.QuantityChanged | app/clone-product-recipe/page.jsx:91-108 | the lines of the edited item take the parsed quantity and its price; every other line is unchanged |
| CloneProductRecipe.OperationsKeepPriced | app/clone-product-recipe/page.jsx:66-108 | after a multiplier or an edit every line's price is the one its quantity gives |
| CloneProductRecipe.CloneLines | app/clone-product-recipe/page.jsx:116-119 | one clone line per ingredient, with its item id and quantity |
| CloneProductRecipe.CloneRequestOf | app/clone-product-recipe/page.jsx:110-132 | refused without a target product, then refused for an empty recipe, each with its message; otherwise the target and every line's item and quantity |
| CloneProductRecipe.CloneSendsScaled | app/clone-product-recipe/page.jsx:66-84 | cloning after a multiplier sends the scaled quantities (also lines 110-132) |
| CloneProductRecipe.LinePriceScales | app/clone-product-recipe/page.jsx:70-73 | scaling a priced line with a numeric quantity scales its price by the factor |
| CloneProductRecipe.TotalCostScales | app/clone-product-recipe/page.jsx:66-84 | scaling a priced recipe with numeric quantities scales its total cost by the factor (also line 149) |
| CloneProductRecipe.CancelPackSize | app/clone-product-recipe/page.jsx:73 | equal products with the same non-zero pack size have equal factors |
| CloneProductRecipe.Page.constructor | app/clone-product-recipe/page.jsx:13-64 | the loaded recipe, no target product, no active multiplier |
| CloneProductRecipe.Page.AdjustQuantities | app/clone-product-recipe/page.jsx:66-84 | the chosen multiplier becomes active (its button disabled) and the recipe is adjusted |
| CloneProductRecipe.Page.Reset | app/clone-product-recipe/page.jsx:86-89 | no multiplier is active and the recipe is the reloaded one |
| CloneProductRecipe.Page.QuantityChange | app/clone-product-recipe/page.jsx:91-108 | the recipe becomes QuantityChanged of the old one |
| CloneProductRecipe.Page.Clone | app/clone-product-recipe/page.jsx:110-146 | the request of the current state; success with a count of at least 1 clears the target, otherwise it is kept |
| CloneProductRecipe.TotalCost | app/clone-product-recipe/page.jsx:149 | definition, no contract of its own: the sum of the line prices; TotalCostScales states how it follows a rescale |
| UpdateProductRecipe.SetField | app/update-product-recipe/page.jsx:73-75 | only the named field of the row takes the value |
| UpdateProductRecipe.ValidIsFilled | app/update-product-recipe/page.jsx:78-83 | a row passing `isFormValid`'s test also passes the submit filter |
| UpdateProductRecipe.ValidFormSubmits | app/update-product-recipe/page.jsx:77-92 | when the submit button is enabled the request is never empty (also line 169) |
| UpdateProductRecipe.ZeroQuantityIsSent | app/update-product-recipe/page.jsx:78-87 | the filter is weaker than the validity test: a filled row with quantity "0" is sent with quantity 0 beside a valid row |
| UpdateProductRecipe.SubmitRequest | app/update-product-recipe/page.jsx:81-100 | refused with "Please fill all fields before submitting" exactly when no row has both an item and a quantity; otherwise the product and the filled rows' lines in row order |
| UpdateProductRecipe.Page.constructor | app/update-product-recipe/page.jsx:15-16 | one blank row with id 1, and the loaded recipe |
| UpdateProductRecipe.Page.AddRows | app/update-product-recipe/page.jsx:64-71 | three blank rows numbered after the last row's id are appended, so increasing ids stay increasing |
| UpdateProductRecipe.Page.UpdateRow | app/update-product-recipe/page.jsx:73-75 | only the row with the id changes, and the ids stay as they were |
| UpdateProductRecipe.Page.SubmitNew | app/update-product-recipe/page.jsx:81-115 | the request of the current rows; success resets to one blank row and reloads the recipe, anything else keeps both |
| UpdateProductRecipe.IngredientRow.constructor | app/update-product-recipe/page.jsx:285-288 | the box shows the stored quantity, Apply is hidden and there is no old value |
| UpdateProductRecipe.IngredientRow.QuantityChange | app/update-product-recipe/page.jsx:290-299 | the box takes the text; Apply and the old value show exactly when the parsed text differs from the stored quantity |
| UpdateProductRecipe.IngredientRow.Apply | app/update-product-recipe/page.jsx:117-122 | sends the page's product with a one-line list: the item with `parseFloat` of the box; then hides Apply and the old value (also lines 301-305) |
| UpdateProductRecipe.IngredientRow.NewTotalPrice | app/update-product-recipe/page.jsx:307-309 | the preview is the price of the parsed box, a number exactly when the box parses |
| UpdateProductRecipe.ApplyVisibility | app/update-product-recipe/page.jsx:292 | typing back the stored number hides Apply; clearing the box shows it |
| UpdateProductRecipe.ZeroLineSelected | app/update-product-recipe/page.jsx:78-87 | the filled row with quantity "0" is sent as a line with quantity 0 |
| UpdateProductRecipe.Page.IsFormValid | app/update-product-recipe/page.jsx:77-79 | definition, no contract of its own: some new row has an item and a quantity that parses above 0; ValidFormSubmits shows an enabled button always sends something |
| UpdateProductRecipe.Page.TotalCost | app/update-product-recipe/page.jsx:150 | definition, no contract of its own: CloneProductRecipe.TotalCost of the loaded lines, so the clone page's lemmas about that sum apply |
| BaseItemPurchase.NewQuantity | app/base-item-purchase/page.jsx:98-103 | GM and ML quantities are rounded to a whole number within ½ of quantity·ratio; other units are scaled exactly |
| BaseItemPurchase.ScaleLine | app/base-item-purchase/page.jsx:93-113 | only the display fields change; the display quantity is the rescaled quantity and the display price follows the quantity ratio actually realised (price·q = recipe price·new q) |
| BaseItemPurchase.UnroundedPriceScales | app/base-item-purchase/page.jsx:98-106 | for a unit that is not rounded, quantity and price are both scaled by exactly the batch ratio |
| BaseItemPurchase.Cancel | app/base-item-purchase/page.jsx:105-106 | equal products with the same non-zero quantity have equal factors |
| BaseItemPurchase.Rescale | app/base-item-purchase/page.jsx:93-113 | every line, in order, is rescaled by the same ratio |
| BaseItemPurchase.RescaleIdempotent | app/base-item-purchase/page.jsx:84-117 | applying the same measure twice gives what applying it once gives |
| BaseItemPurchase.RescaleForgetsEarlier | app/base-item-purchase/page.jsx:94-112 | a later rescale overrides an earlier one, because only the recipe's own quantity and price are read |
| BaseItemPurchase.ScaleLineOverrides | app/base-item-purchase/page.jsx:94-112 | one line rescaled twice equals that line rescaled by the second ratio only |
| BaseItemPurchase.OrNumber | app/base-item-purchase/page.jsx:143-144 | an absent display value or one equal to 0 falls back to the recipe value |
| BaseItemPurchase.ItemsAsWritten | app/base-item-purchase/page.jsx:141-145 | one request line per ingredient falling back to the recipe value whenever the rescaled one is missing or 0, as written (see Findings) |
| BaseItemPurchase.Shown | app/base-item-purchase/page.jsx:143-144 | a present display value is taken even when it is 0; otherwise the recipe value |
| BaseItemPurchase.Items | app/base-item-purchase/page.jsx:141-145 | the corrected request lines: one per ingredient, the rescaled value whenever one exists |
| BaseItemPurchase.RoundedToZeroSendsRecipeAmount | app/base-item-purchase/page.jsx:101-144 | as written, 300 GM scaled by 1/1000 rounds to 0 GM and is then sent with its full recipe quantity and price |
| BaseItemPurchase.ItemsFollowRescale | app/base-item-purchase/page.jsx:93-145 | after a rescale the corrected request carries each line's rescaled quantity and the price that follows it |
| BaseItemPurchase.ItemsOfRecipe | app/base-item-purchase/page.jsx:141-145 | before any rescale the request carries the recipe as loaded |
| BaseItemPurchase.CostPerUnit | app/base-item-purchase/page.jsx:147-148 | cost per unit · quantity prepared = total cost · the base item's batch size |
| BaseItemPurchase.TotalPriceIsRequestTotal | app/base-item-purchase/page.jsx:147-199 | the page's total price equals the total cost of the request lines |
| BaseItemPurchase.TotalScales | app/base-item-purchase/page.jsx:93-113 | without weights or volumes the rescaled total is the ratio times the recipe's total (also lines 196-199) |
| BaseItemPurchase.SubmitRequest | app/base-item-purchase/page.jsx:124-173 | as intended (corrected line rule, see Findings): the department, then the date, then a positive quantity are checked with their messages; a declined dialog cancels; otherwise the payload of date, department, base item, quantity, batch size, unit and lines, with a positive quantity |
| BaseItemPurchase.CostPerUnitOfRecipe | app/base-item-purchase/page.jsx:141-148 | an unrescaled recipe prepared at its own batch size costs the recipe's price per unit |
| BaseItemPurchase.Page.constructor | app/base-item-purchase/page.jsx:25-48 | the measure and the original measure are the base item's batch size; today's date; no department |
| BaseItemPurchase.Page.UpdateAllQuantities | app/base-item-purchase/page.jsx:84-117 | a measure that is not a positive number is refused and nothing changes; otherwise the lines are rescaled by measure / original measure |
| BaseItemPurchase.Page.Refresh | app/base-item-purchase/page.jsx:119-122 | the measure goes back to the original one and the recipe is reloaded |
| BaseItemPurchase.Page.Submit | app/base-item-purchase/page.jsx:124-193 | as intended (corrected line rule, see Findings): the request of the current state; success with a count of at least 1 makes the prepared quantity the new original measure and reloads the recipe; otherwise nothing changes |
| BaseItemPurchase.ItemsAgreeAwayFromZero | app/base-item-purchase/page.jsx:139-145 | a request line of the corrected rule differs from the written one only where a rescaled quantity or price is 0, and with no such value the two requests are equal |
| BaseItemPurchase.TotalPriceAsWritten | app/base-item-purchase/page.jsx:196-199 | definition, no contract of its own: the sum over the lines of `displayPrice` or else `ingredientPrice` (a 0 counts as absent); TotalPricesAgreeAwayFromZero relates it to TotalPrice |
| BaseItemPurchase.TotalPrice | app/base-item-purchase/page.jsx:196-199 | definition, no contract of its own: the sum of the rescaled price where there is one and the recipe's price otherwise; TotalPriceIsRequestTotal and TotalScales state its properties |
| BaseItemPurchase.TotalPricesAgreeAwayFromZero | app/base-item-purchase/page.jsx:196-199 | with no rescaled price of 0, the written total equals the shown total |
| BaseItemPurchase.TotalCost | app/base-item-purchase/page.jsx:147 | definition, no contract of its own: the sum of the request lines' prices; CostPerUnit and TotalPriceIsRequestTotal state its relation to the page total and the unit cost |
| SnapshotTable.Find | app/manage-products/page.jsx:89-90 | none exactly when no row has the id; otherwise a row of the table with that id |
| SnapshotTable.FindUnique | app/manage-products/page.jsx:89 | with distinct ids the row found is the one carrying the id |
| SnapshotTable.Loaded | app/manage-products/page.jsx:33-41 | one row per fetched record, in order, whose snapshot is taken from the record itself |
| SnapshotTable.Edited | app/manage-products/page.jsx:62-85 | only the record with the id is edited; ids and snapshots are untouched |
| SnapshotTable.Committed | app/manage-products/page.jsx:107-119 | only the row with the id has its snapshot retaken, from its current record; ids and records are untouched |
| SnapshotTable.Without | app/manage-products/page.jsx:142 | the result holds every row without the id and only rows of the table, none with the id; their order is kept (WithoutAppend) |
| SnapshotTable.WithoutKeepsUnique | app/manage-products/page.jsx:142 | filtering out an id keeps the remaining ids distinct |
| SnapshotTable.WithoutTailDistinct | app/manage-products/page.jsx:142 | no row kept from the tail shares the first row's id |
| SnapshotTable.ConsUnique | app/manage-products/page.jsx:142 | a first row whose id no later row has keeps the ids distinct |
| SnapshotTable.Table.constructor | app/manage-products/page.jsx:13-18 | no rows and an empty `changedRows`, so the tracking invariant holds |
| SnapshotTable.Table.Load | app/manage-products/page.jsx:24-55 | rows are the loaded ones with fresh snapshots and `changedRows` is left as it was: the table tracks its changes exactly when no reloaded id is still marked |
| SnapshotTable.Table.Change | app/manage-products/page.jsx:61-86 | the record is edited, its id added when it differs from its snapshot and removed otherwise; `changedRows` keeps naming exactly the rows that differ |
| SnapshotTable.Table.Apply | app/manage-products/page.jsx:88-132 | nothing is sent for an unknown id; otherwise the row's record is sent, and on acceptance its snapshot is retaken and its id removed; a refusal changes nothing; tracking is preserved |
| SnapshotTable.Table.Delete | app/manage-products/page.jsx:134-150 | after confirmation and acceptance the row is filtered out, otherwise nothing changes; ids stay distinct, tracking is preserved |
| SnapshotTable.WithoutAppend | app/manage-products/page.jsx:142 | removing from two lists joined is removing from each and joining the results, and a single row is kept exactly when its id differs, so the kept rows stay in table order |
| ManageProducts.SetField | app/manage-products/page.jsx:65 | the named field takes the value, every other tracked field and both sales figures are kept |
| ManageProducts.DirtyIffSnapshotMoved | app/manage-products/page.jsx:34-70 | a product counts as changed exactly when retaking its snapshot would change it, so a fresh snapshot is clean |
| ManageProducts.RevertClears | app/manage-products/page.jsx:61-86 | an edit marks the product changed exactly when the value differs from the field's own; typing the old value back clears it |
| ManageProducts.ApplyPayload | app/manage-products/page.jsx:93-103 | the apply item carries the id and exactly the four tracked fields of the product |
| ManageProducts.CountWithSales | app/manage-products/page.jsx:177-178 | a counter never exceeds the number of products |
| ManageProducts.CountZeroIff | app/manage-products/page.jsx:177-178 | a counter is 0 exactly when no product has a positive sold figure in its period |
| ManageProducts.HasSalesIffPositive | app/manage-products/page.jsx:177-178 | a sales counter counts a product exactly when its sold count, missing as 0, converts to a positive number |
| ManageProducts.CountIgnoresEdits | app/manage-products/page.jsx:61-86 | editing names, departments, master items or prices never changes the counters (also lines 177-178) |
| ManageProducts.Sold | app/manage-products/page.jsx:177-178 | definition, no contract of its own: the weekly or the monthly sold figure; CountZeroIff and CountIgnoresEdits state the counts over it |
| ManageProducts.HasSales | app/manage-products/page.jsx:177 | definition, no contract of its own: the figure or 0 compared above 0; HasSalesIffPositive states exactly which values pass |
| ManageStoreItems.SetField | app/manage-store-items/page.jsx:65 | the named field takes the value and the four others are kept |
| ManageStoreItems.DirtyIffSomeFieldMoved | app/manage-store-items/page.jsx:34-71 | an item counts as changed exactly when one of its five fields differs from its initial value, so a fresh snapshot is clean |
| ManageStoreItems.EditDirtiesIffValueChanged | app/manage-store-items/page.jsx:61-87 | one edit of a clean item marks it changed exactly when the value differs from the old one |
| ManageStoreItems.ApplyPayload | app/manage-store-items/page.jsx:94-105 | the apply item carries the id and exactly the five tracked fields |
| NameTable.Rename | app/manage-suppliers/page.jsx:49-53 | the record's name becomes the typed value |
| NameTable.RenameDirtyIff | app/manage-suppliers/page.jsx:26-54 | a freshly loaded record is clean, and a rename marks it changed exactly when the new name is not the initial one; app/manage-departments/page.jsx has the same lines |
| NameTable.CommitClearsDirty | app/manage-suppliers/page.jsx:79-85 | after a successful apply the committed record is clean whatever it held |
| NameTable.ApplyPayload | app/manage-suppliers/page.jsx:76 | the apply item is the id and the current name; app/manage-departments/page.jsx has the same line |
| ManageUsers.DepartmentsOrEmpty | app/manage-users/page.jsx:40 | a present list, even an empty one, is kept; a missing one becomes [] (also line 107) |
| ManageUsers.NoDepartmentsAlwaysDirty | app/manage-users/page.jsx:40-73 | as written, a user without a department list differs from its own fresh snapshot (see Findings) |
| ManageUsers.SnapshotNeverDiffers | app/manage-users/page.jsx:32-73 | with the default on both sides a fresh snapshot is clean, a user is changed exactly when its snapshot would move, and for users with a list the corrected and the written checks agree |
| ManageUsers.SetField | app/manage-users/page.jsx:66 | the named field takes the value; the others, the user name and the departments are kept |
| ManageUsers.SetDepartments | app/manage-users/page.jsx:91-93 | the departments become the selection and the scalar fields are kept |
| ManageUsers.DisabledFromSelect | app/manage-users/page.jsx:269-270 | the Active select stores `disabled` as the boolean "option is 'true'" |
| ManageUsers.RevertedEditStaysDirty | app/manage-users/page.jsx:62-89 | as written, putting the old name back does not clear a user without departments; with the corrected check it does |
| ManageUsers.ApplyPayload | app/manage-users/page.jsx:100-108 | the register request carries the user name, the five scalar fields and the departments with a missing list sent as [] |
| ManageUsers.DiffersAsWritten | app/manage-users/page.jsx:67-73 | definition, no contract of its own: a scalar field differs, or the JSON text of the departments differs from that of the snapshot's; the lemma after it shows a fresh user differs from its own snapshot |
| ManageUsers.Differs | app/manage-users/page.jsx:67-73 | definition, no contract of its own: a scalar field differs, or the departments with the snapshot's default of an empty list differ; SnapshotNeverDiffers shows it is coherent with the snapshot |
| ManageOutgoingInvoices.Edit | app/manage-outgoing-invoices/page.jsx:104-107 | the edited field takes the value and the row is marked as changed; every other field is kept |
| ManageOutgoingInvoices.StatusOrNull | app/manage-outgoing-invoices/page.jsx:121 | the status 'NONE' is sent as null, any other status as it is |
| ManageOutgoingInvoices.ApplyPayload | app/manage-outgoing-invoices/page.jsx:113-124 | the upsert carries the invoice's id, customer, number, dates and amounts, a missing discount as 0, and the status as stored except that 'NONE' is sent as null |
| ManageOutgoingInvoices.TotalPriceFinite | app/manage-outgoing-invoices/page.jsx:189 | the footer total is a number whenever every present final amount is one |
| ManageOutgoingInvoices.Without | app/manage-outgoing-invoices/page.jsx:153 | the result holds exactly the invoices whose id differs from the deleted one; their order is kept (WithoutAppend) |
| ManageOutgoingInvoices.Page.constructor | app/manage-outgoing-invoices/page.jsx:21-23 | the page starts with no invoices and no changed rows |
| ManageOutgoingInvoices.Page.Load | app/manage-outgoing-invoices/page.jsx:78-79 | the loaded list replaces the rows, none marked changed |
| ManageOutgoingInvoices.Page.Change | app/manage-outgoing-invoices/page.jsx:104-109 | the edit is applied to the rows and the id joins the changed set; every marked row stays in the set |
| ManageOutgoingInvoices.Page.Apply | app/manage-outgoing-invoices/page.jsx:111-143 | the payload is sent; on an accepted reply the row is unmarked and leaves the changed set, otherwise nothing changes |
| ManageOutgoingInvoices.Page.Delete | app/manage-outgoing-invoices/page.jsx:145-161 | only a confirmed and accepted delete removes the invoice's rows; the marked rows stay in the changed set |
| ManageOutgoingInvoices.WithoutAppend | app/manage-outgoing-invoices/page.jsx:153 | removing from two lists joined is removing from each and joining the results, and a single invoice is kept exactly when its id differs, so the kept invoices stay in list order |
| ManageOutgoingInvoices.TotalPrice | app/manage-outgoing-invoices/page.jsx:189 | definition, no contract of its own: the sum of `parseFloat` of the final amount or 0 over the invoices; TotalPriceFinite states when it is a number |
| ManageOutgoingInvoices.ClearMark | app/manage-outgoing-invoices/page.jsx:130-132 | after a save every invoice keeps its place; the saved one has its changed mark cleared and nothing else about it or the others changes |
| ManageOutgoingInvoices.EditAll | app/manage-outgoing-invoices/page.jsx:104-107 | every invoice keeps its place; the one with the id becomes Edit of it and the others are unchanged |
| ManageSupplierPayments.PurchaseTypeLabel | app/manage-supplier-payments/page.jsx:398 | the label is 'Fixed/Other Expense' exactly for purchase type 2 and 'COGS Expense' for every other |
| ManageSupplierPayments.Amount | app/manage-supplier-payments/page.jsx:409-417 | a typed amount is always a number: the parsed value, or 0 when it does not parse |
| ManageSupplierPayments.PaymentRow.constructor | app/manage-supplier-payments/page.jsx:383-386 | a row starts from the record's amounts with no changes |
| ManageSupplierPayments.PaymentRow.EditPayment | app/manage-supplier-payments/page.jsx:388-409 | the payment box takes the typed amount, the tax is kept, and the changed flag is recomputed against the record |
| ManageSupplierPayments.PaymentRow.EditTax | app/manage-supplier-payments/page.jsx:388-417 | the tax box takes the typed amount, the payment is kept, and the changed flag is recomputed against the record |
| ManageSupplierPayments.PaymentRow.Apply | app/manage-supplier-payments/page.jsx:424-426 | Apply is offered only with changes and sends the row id and the two edited amounts |
| ManageSupplierPayments.ApplyPayload | app/manage-supplier-payments/page.jsx:126-132 | the request carries the id; numeric amounts are sent as the same numbers, text amounts as their `parseFloat`, and anything else as NaN |
| ManageSupplierPayments.EditedAmountsSentExactly | app/manage-supplier-payments/page.jsx:126-132 | amounts typed into a row reach the request unchanged and never as NaN (also lines 409 and 417) |
| ManageSupplierPayments.TotalCostNonNegative | app/manage-supplier-payments/page.jsx:184-186 | the footer total of non-negative payments is non-negative, and unparseable ones add 0 |
| ManageSupplierPayments.TotalCost | app/manage-supplier-payments/page.jsx:184-186 | definition, no contract of its own: the sum of the parsed payment amounts with NaN counting 0; TotalCostNonNegative states its properties |
| ManageItemPurchase.HandleDelete | app/manage-item-purchase/page.jsx:126-142 | a base item is refused before any confirmation; any other row is deleted by date, supplier and item exactly when confirmed |
| ManageItemPurchase.HandleApply | app/manage-item-purchase/page.jsx:144-160 | a base item is refused; any other row is sent as a one-item list carrying its date, supplier, item, amounts and unit quantity |
| ManageItemPurchase.UnitQuantityOrOne | app/manage-item-purchase/page.jsx:406-447 | the unit quantity used is never 0: the item's own when present and non-zero, else 1 |
| ManageItemPurchase.PreviewPrice | app/manage-item-purchase/page.jsx:404-407 | the preview changes only when both amounts are positive numbers, and then positive amounts and a positive pack size give a positive price |
| ManageItemPurchase.PurchaseRow.Effect | app/manage-item-purchase/page.jsx:401-411 | the changed flag is recomputed against the record, and the unit price preview is recomputed exactly when both amounts are positive |
| ManageItemPurchase.PurchaseRow.constructor | app/manage-item-purchase/page.jsx:393-411 | a row starts from the record's amounts, unchanged, with the preview already run once |
| ManageItemPurchase.PurchaseRow.EditQuantity | app/manage-item-purchase/page.jsx:401-428 | the quantity takes the typed number (0 when it does not parse), the price is kept, and the effect runs |
| ManageItemPurchase.PurchaseRow.EditTotalPrice | app/manage-item-purchase/page.jsx:401-437 | the total price takes the typed number (0 when it does not parse), the quantity is kept, and the effect runs |
| ManageItemPurchase.PurchaseRow.Apply | app/manage-item-purchase/page.jsx:445-447 | Apply, shown only on a changed non-base row, always sends that row's one-item list |
| ManageItemPurchase.TotalOfNumbers | app/manage-item-purchase/page.jsx:335 | the header total is a number whenever every present price is one |
| ManageItemPurchase.Total | app/manage-item-purchase/page.jsx:335 | definition, no contract of its own: the sum of `parseFloat` of the total price or 0; TotalOfNumbers states when it is a number |
| ManageItemPurchase.IsBaseItem | app/manage-item-purchase/page.jsx:127 | definition, no contract of its own: the item type is the text 'Base Item'; HandleDelete and HandleApply state the refusals it drives |
| ManageItemConsumption.BaseItemGuard | app/manage-item-consumption/page.jsx:130 | a row counts as a base-item ingredient unless its base item id is missing, false, 0, empty or the string '0' (also lines 148 and 396) |
| ManageItemConsumption.HandleDelete | app/manage-item-consumption/page.jsx:129-145 | a base-item ingredient is refused before any confirmation; any other row is deleted by date, department and item with base item 0 exactly when confirmed |
| ManageItemConsumption.HandleApply | app/manage-item-consumption/page.jsx:147-168 | a base-item ingredient is refused; any other row sends a one-entry list with base item 0 and the parsed quantity |
| ManageItemConsumption.ConsumptionRow.constructor | app/manage-item-consumption/page.jsx:384-390 | a row starts from the record's quantity with no changes |
| ManageItemConsumption.ConsumptionRow.EditQuantity | app/manage-item-consumption/page.jsx:388-409 | on an enabled row the quantity takes the typed number (0 when it does not parse) and the changed flag is recomputed against the record |
| ManageItemConsumption.ConsumptionRow.Apply | app/manage-item-consumption/page.jsx:418-420 | Apply, shown only on a changed non-base row, always sends that row's one-entry list |
| ManageItemConsumption.TotalCostSplit | app/manage-item-consumption/page.jsx:197 | the footer total is the rest of the rows' total plus one row's price, 0 when that price does not parse |
| ManageItemConsumption.InitialRange | app/manage-item-consumption/page.jsx:15-44 | both URL dates give a custom range; otherwise both ends are yesterday |
| ManageItemConsumption.TotalCost | app/manage-item-consumption/page.jsx:197 | definition, no contract of its own: the sum of the parsed row totals with NaN counting 0; TotalCostSplit states its properties |
| ManageItemConsumption.IsBaseItem | app/manage-item-consumption/page.jsx:130 | definition, no contract of its own: `baseItemId && baseItemId !== '0'`; BaseItemGuard states exactly which ids fail it |
| ManageSupplierPurchase.BlankForm | app/manage-supplier-purchase/page.jsx:158-171 | the add form is dated today, has no id, status 'PENDING' and every other field empty |
| ManageSupplierPurchase.AddTitle | app/manage-supplier-purchase/page.jsx:156 | the add popup is titled 'Add COGS Expense' exactly for type 1, else 'Add Fixed/Other Expense' |
| ManageSupplierPurchase.RowForm | app/manage-supplier-purchase/page.jsx:188-200 | the update form copies the row, with missing notes and invoice number as '', a missing status as 'PENDING' and the payment fields blank |
| ManageSupplierPurchase.StatusChanged | app/manage-supplier-purchase/page.jsx:241-254 | the status always changes; only a move into 'COMPLETED' from another status also dates the payment today and copies the purchase amounts into it |
| ManageSupplierPurchase.CompletingTwice | app/manage-supplier-purchase/page.jsx:246 | choosing 'COMPLETED' again changes nothing more, even on a later day |
| ManageSupplierPurchase.CompletedPaysPurchase | app/manage-supplier-purchase/page.jsx:246-250 | after completing, the payment equals the purchase and is dated today |
| ManageSupplierPurchase.AmountOrZero | app/manage-supplier-purchase/page.jsx:222-227 | an amount is its parsed value, or 0 when it does not parse |
| ManageSupplierPurchase.SubmitPayload | app/manage-supplier-purchase/page.jsx:215-228 | the request carries the form and the popup's type, empty notes, invoice number and payment date as null, each amount parsed or 0, and the supplier through parseInt |
| ManageSupplierPurchase.BlankFormPayload | app/manage-supplier-purchase/page.jsx:158-171 | an untouched add form sends no supplier (NaN), zero amounts, null texts, status 'PENDING' and no id (also lines 215-228) |
| ManageSupplierPurchase.CompletedSubmitPaysPurchase | app/manage-supplier-purchase/page.jsx:215-254 | completing and then submitting sends the purchase amounts as the payment amounts |
| ManageSupplierPurchase.TotalCostSplits | app/manage-supplier-purchase/page.jsx:296-298 | the total is the purchase total plus the tax total |
| ManageSupplierPurchase.TotalCostNonNegative | app/manage-supplier-purchase/page.jsx:296-298 | non-negative amounts, with unparseable ones as 0, give a non-negative total |
| ManageSupplierPurchase.FilteredDates | app/manage-supplier-purchase/page.jsx:85-100 | 'today' and 'yesterday' set both ends of the range; any other choice keeps it |
| ManageSupplierPurchase.Page.constructor | app/manage-supplier-purchase/page.jsx:13-43 | the page starts on 'today' with an empty range, type 1, the add popup titled 'Add Purchase', a blank undated form and the carousel at 0 |
| ManageSupplierPurchase.Page.DateFilterChange | app/manage-supplier-purchase/page.jsx:85-100 | the filter is set and the range follows the filter choice |
| ManageSupplierPurchase.Page.OpenAdd | app/manage-supplier-purchase/page.jsx:153-171 | the popup opens in add mode for the type, with its title and a blank form dated today |
| ManageSupplierPurchase.Page.OpenUpdate | app/manage-supplier-purchase/page.jsx:183-200 | the popup opens in update mode with the row's type and the row's form |
| ManageSupplierPurchase.Page.StatusChange | app/manage-supplier-purchase/page.jsx:241-254 | the form follows the status rule |
| ManageSupplierPurchase.Page.Submit | app/manage-supplier-purchase/page.jsx:212-228 | the request is the form's payload for the popup's type |
| ManageSupplierPurchase.Page.MoveCarousel | app/manage-supplier-purchase/page.jsx:282-293 | the position follows the carousel rule and is untouched without cards |
| ManageSupplierPurchase.TotalCost | app/manage-supplier-purchase/page.jsx:296-298 | definition, no contract of its own: the sum of parsed purchase plus tax amounts; TotalCostSplits and TotalCostNonNegative state its properties |
| StockItems.FindIndex | app/add-item-consumption/page.jsx:47-57 | the position found is the first entry that matches, or past the end when none does |
| StockItems.Find | app/add-item-consumption/page.jsx:47-57 | nothing is found exactly when no entry matches; a found entry matches and is the first matching entry of the list |
| StockItems.Lookup | app/add-item-consumption/page.jsx:57 | the lookup by the row's item id finds an entry exactly when one has that id under strict equality |
| StockItems.TextNeverFindsNumericId | app/add-item-consumption/page.jsx:47-57 | over numeric ids the lookup by the select box's text finds nothing |
| StockItems.PreviewOfItem | app/add-item-consumption/page.jsx:60-62 | the previewed total is the quantity in packs times the unit price |
| StockItems.PacksTimesPrice | app/add-item-consumption/page.jsx:62 | packs times price is a number exactly when its three inputs are, and then times the pack size gives quantity times price |
| StockItems.ItemPrice | app/add-item-consumption/page.jsx:56-65 | the preview is '-' exactly when the quantity is empty or the item is not found; otherwise it shows the unit price and the quantity in packs times that price |
| StockItems.NumericIdsShowDash | app/add-item-consumption/page.jsx:56-58 | over numeric ids the preview is always '-' |
| AddItemPurchase.LookupNumber | app/add-item-purchase/page.jsx:70 | the chosen item is found exactly when an entry's id equals the parsed number; an unparseable choice finds nothing |
| AddItemPurchase.EditRow | app/add-item-purchase/page.jsx:64-81 | the named field takes the value; choosing an item that exists also copies its pack size (1 when missing) and unit ('' when missing), and nothing else changes |
| AddItemPurchase.EditKeepsPackSizeTruthy | app/add-item-purchase/page.jsx:57-72 | an edit never leaves a row without a pack size |
| AddItemPurchase.PerPackArithmetic | app/add-item-purchase/page.jsx:85 | over a positive quantity the per-pack price times the quantity is the total times the pack size |
| AddItemPurchase.CalculateItemPrice | app/add-item-purchase/page.jsx:83-88 | the preview is '-' exactly unless quantity and total are positive and the pack size is set; otherwise it is the price of one pack |
| AddItemPurchase.SubmitRequest | app/add-item-purchase/page.jsx:97-118 | submit is refused exactly when no row is valid; otherwise a non-empty list of the valid rows' lines is sent |
| AddItemPurchase.SubmitSendsValidRows | app/add-item-purchase/page.jsx:90-118 | a form that passes the validity test is sent, every line carries the form's date, and every valid row is sent |
| AddItemPurchase.RowsAfterSuccessAsWritten | app/add-item-purchase/page.jsx:128-129 | as written, the rows after success are the submitted rows followed by three blank ones (also line 61) |
| AddItemPurchase.RowsAfterSuccess | app/add-item-purchase/page.jsx:126-129 | as intended, the rows after success are three blank rows with unique ids, none of them valid |
| AddItemPurchase.BlankBlock | app/add-item-purchase/page.jsx:48-62 | three blank rows have unique ids, a pack size, and none is valid |
| AddItemPurchase.ResubmitsAsWritten | app/add-item-purchase/page.jsx:123-129 | as written, a second submit after success sends the same lines again (also line 61) |
| AddItemPurchase.NothingToResend | app/add-item-purchase/page.jsx:102-129 | as intended, a submit right after success is refused |
| AddItemPurchase.Page.constructor | app/add-item-purchase/page.jsx:24-39 | once loaded the page holds today's date and three blank rows with unique ids |
| AddItemPurchase.Page.AddRow | app/add-item-purchase/page.jsx:48-62 | three blank rows are appended; ids stay unique when the clock reading is later than all of them, and pack sizes stay set |
| AddItemPurchase.Page.UpdateRow | app/add-item-purchase/page.jsx:64-81 | only the row with the id is edited; ids stay unique and pack sizes stay set |
| AddItemPurchase.Page.Submit | app/add-item-purchase/page.jsx:97-139 | as intended (corrected reset, see Findings): the valid rows are sent; an accepted submit resets the date and leaves exactly three blank rows, anything else leaves the page as it was |
| AddItemPurchase.IsFormValid | app/add-item-purchase/page.jsx:90-95 | definition, no contract of its own: a date and some row with supplier, item, and quantity and total price above 0; SubmitSendsValidRows shows a form that passes it is sent |
| AddItemPurchase.Lines | app/add-item-purchase/page.jsx:98-118 | definition, no contract of its own: DraftRows.Select of the valid rows through ToLine; SubmitSendsValidRows states the date and completeness |
| AddItemPurchase.ValidRow | app/add-item-purchase/page.jsx:92-100 | definition, no contract of its own: supplier, item, quantity and total price above 0, the one test of both the button and the submit filter |
| AddItemConsumption.EditRow | app/add-item-consumption/page.jsx:43-54 | the named field takes the value; choosing an item also sets its unit, '' when the item is not found or has none, and nothing else changes |
| AddItemConsumption.ValidIsFilled | app/add-item-consumption/page.jsx:67-81 | every row that passes the validity test passes the submit filter |
| AddItemConsumption.SubmitRequest | app/add-item-consumption/page.jsx:67-88 | submit is refused exactly when the date is empty or no row is valid; otherwise the filled rows are sent, and at least one is |
| AddItemConsumption.EntriesCarryDate | app/add-item-consumption/page.jsx:82-88 | every entry carries the form's date and base item 0 |
| AddItemConsumption.ZeroQuantityIsSent | app/add-item-consumption/page.jsx:69-81 | next to a valid row, a filled row with quantity '0' is sent with quantity 0 |
| AddItemConsumption.ZeroEntrySelected | app/add-item-consumption/page.jsx:81-87 | the row with quantity '0' is sent as an entry with quantity 0 |
| AddItemConsumption.Page.constructor | app/add-item-consumption/page.jsx:8-16 | the page starts with today's date and one blank row with id 1 |
| AddItemConsumption.Page.AddRows | app/add-item-consumption/page.jsx:34-41 | three blank rows are numbered after the last one and ids stay increasing |
| AddItemConsumption.Page.UpdateRow | app/add-item-consumption/page.jsx:43-54 | only the row with the id is edited and ids stay increasing |
| AddItemConsumption.Page.RowPrice | app/add-item-consumption/page.jsx:56-65 | a row's preview is '-' exactly when its quantity is empty or its item is not found; otherwise it shows the found item's unit price and a total that is a number exactly when quantity, pack size and price are, equal to the quantity in packs times the unit price |
| AddItemConsumption.Page.Submit | app/add-item-consumption/page.jsx:72-107 | the filled rows are sent; an accepted submit resets the date and leaves one blank row with id 1, anything else leaves the page as it was |
| AddItemConsumption.IsFormValid | app/add-item-consumption/page.jsx:67-70 | definition, no contract of its own: a date and some row with department, item and a quantity above 0; SubmitRequest is refused exactly when it fails |
| AddItemConsumption.Entries | app/add-item-consumption/page.jsx:81-88 | definition, no contract of its own: DraftRows.Select of the filled rows through ToEntry; Select and SelectAppend give membership and order and EntriesCarryDate the date and base item 0 |
| AddItemConsumption.ValidRow | app/add-item-consumption/page.jsx:69 | definition, no contract of its own: department, item and a quantity above 0; ValidIsFilled states that such a row is also sent |
| AddClosingStock.EditRow | app/add-item-purchase-closing-stock/page.jsx:38-49 | the named field takes the value; choosing an item also sets its unit, '' when the item is not found or has none |
| AddClosingStock.ValidIsFilled | app/add-item-purchase-closing-stock/page.jsx:62-76 | every row that passes the validity test passes the submit filter |
| AddClosingStock.SubmitRequest | app/add-item-purchase-closing-stock/page.jsx:62-81 | submit is refused exactly when the date is empty or no row is valid; otherwise the filled rows are sent, and at least one is |
| AddClosingStock.EntriesOfFilledRows | app/add-item-purchase-closing-stock/page.jsx:75-81 | every entry carries the form's date and every filled row is sent |
| AddClosingStock.Page.constructor | app/add-item-purchase-closing-stock/page.jsx:8-15 | the page starts with today's date and one blank row with id 1 |
| AddClosingStock.Page.AddRows | app/add-item-purchase-closing-stock/page.jsx:29-36 | three blank rows are numbered after the last one and ids stay increasing |
| AddClosingStock.Page.UpdateRow | app/add-item-purchase-closing-stock/page.jsx:38-49 | only the row with the id is edited and ids stay increasing |
| AddClosingStock.Page.RowPrice | app/add-item-purchase-closing-stock/page.jsx:51-60 | a row's preview is '-' exactly when its quantity is empty or its item is not found; otherwise it shows the found item's unit price and a total that is a number exactly when quantity, pack size and price are, equal to the quantity in packs times the unit price |
| AddClosingStock.Page.Submit | app/add-item-purchase-closing-stock/page.jsx:67-100 | the filled rows are sent; an accepted submit resets the date and leaves one blank row with id 1, anything else leaves the page as it was |
| AddClosingStock.IsFormValid | app/add-item-purchase-closing-stock/page.jsx:62-65 | definition, no contract of its own: a date and some row with an item and a quantity above 0; SubmitRequest is refused exactly when it fails |
| AddClosingStock.Entries | app/add-item-purchase-closing-stock/page.jsx:76-81 | definition, no contract of its own: DraftRows.Select of the filled rows through ToEntry; Select and SelectAppend give membership and order and EntriesOfFilledRows the date and completeness |
| AddClosingStock.ValidRow | app/add-item-purchase-closing-stock/page.jsx:64 | definition, no contract of its own: an item and a quantity above 0; ValidIsFilled states that such a row is also sent |
| AddUsers.SetField | app/add-users/page.jsx:54-56 | the named field takes the value and the five others are kept |
| AddUsers.SubmitRequest | app/add-users/page.jsx:64-82 | submit is refused exactly when no row is valid; otherwise the valid rows are sent trimmed |
| AddUsers.ValidRowComplete | app/add-users/page.jsx:59-77 | a valid row becomes a user whose login, password and name are non-empty with no surrounding white space, with a role and the page's outlet |
| AddUsers.SentUsersComplete | app/add-users/page.jsx:64-77 | every sent user is complete |
| AddUsers.OutletOf | app/add-users/page.jsx:13-21 | the outlet is the stored user's when it is set, and 1 otherwise |
| AddUsers.Page.constructor | app/add-users/page.jsx:9-21 | the page starts with one blank row numbered by the clock and the stored outlet |
| AddUsers.Page.AddRows | app/add-users/page.jsx:34-48 | three blank rows numbered by the clock are appended; ids stay unique when the reading is later than all of them |
| AddUsers.Page.DeleteRow | app/add-users/page.jsx:50-52 | the rows with the id are removed; unique ids stay unique and at most one row goes |
| AddUsers.Page.UpdateRow | app/add-users/page.jsx:54-56 | only the row with the id is edited and ids stay unique |
| AddUsers.Page.Submit | app/add-users/page.jsx:58-99 | the request is sent exactly when the form is valid; an accepted submit leaves one blank row, anything else leaves the rows as they were |
| AddUsers.DeleteOnlyRow | app/add-users/page.jsx:50-52 | the only row can be deleted, leaving no row at all |
| AddUsers.Page.IsFormValid | app/add-users/page.jsx:58-62 | definition, no contract of its own: some row with user name, password and name not blank and a role chosen |
| AddUsers.Users | app/add-users/page.jsx:65-76 | definition, no contract of its own: DraftRows.Select of the valid rows through ToUser; SentUsersComplete states that every sent user is complete |
| AddUsers.ValidRow | app/add-users/page.jsx:58-68 | definition, no contract of its own: login, password and name non-blank after trimming and a role chosen; ValidRowComplete states what it guarantees of the sent user |
| AddStoreItems.SetField | app/add-store-items/page.jsx:47-49 | the named field takes the value and the four others are kept |
| AddStoreItems.SubmitRequest | app/add-store-items/page.jsx:62-83 | submit is refused exactly when no row is valid; otherwise the valid rows are sent |
| AddStoreItems.SentItemsPriced | app/add-store-items/page.jsx:63-78 | every sent item has a trimmed non-empty name, a unit, a group and a non-negative numeric price |
| AddStoreItems.Page.constructor | app/add-store-items/page.jsx:11 | the page starts with one blank row numbered by the clock |
| AddStoreItems.Page.AddRows | app/add-store-items/page.jsx:28-41 | three blank rows numbered by the clock are appended; ids stay unique when the reading is later than all of them |
| AddStoreItems.Page.DeleteRow | app/add-store-items/page.jsx:43-45 | the rows with the id are removed; unique ids stay unique and at most one row goes |
| AddStoreItems.Page.UpdateRow | app/add-store-items/page.jsx:47-49 | only the row with the id is edited and ids stay unique |
| AddStoreItems.Page.Submit | app/add-store-items/page.jsx:51-98 | the request is sent exactly when the form is valid; an accepted submit leaves one blank row, anything else leaves the rows as they were |
| AddStoreItems.Page.IsFormValid | app/add-store-items/page.jsx:51-60 | definition, no contract of its own: some row with a name that is not blank, a unit, a group, and measure and price that parse to at least 0 |
| AddStoreItems.Items | app/add-store-items/page.jsx:63-78 | definition, no contract of its own: DraftRows.Select of the valid rows through ToItem; SentItemsPriced states what every sent item has |
| AddStoreItems.ValidRow | app/add-store-items/page.jsx:51-71 | definition, no contract of its own: name, unit and group filled and measure and price parsing to at least 0; SentItemsPriced states its consequence for the request |
| AddSupplierPayment.SetField | app/add-supplier-payment/page.jsx:38-40 | the named field takes the value and the two others are kept |
| AddSupplierPayment.ValidIsFilled | app/add-supplier-payment/page.jsx:42-56 | every row that passes the validity test passes the submit filter |
| AddSupplierPayment.SubmitRequest | app/add-supplier-payment/page.jsx:42-62 | submit is refused exactly when the date is empty or no row is valid; otherwise the rows with a supplier and a payment are sent, and at least one is |
| AddSupplierPayment.MissingTaxIsZero | app/add-supplier-payment/page.jsx:55-62 | every row with a supplier and a payment is sent, and a row without a tax is sent with tax 0 |
| AddSupplierPayment.Page.constructor | app/add-supplier-payment/page.jsx:8-15 | the page starts with today's date and one blank row with id 1 |
| AddSupplierPayment.Page.AddRows | app/add-supplier-payment/page.jsx:29-36 | three blank rows are numbered after the last one and ids stay increasing |
| AddSupplierPayment.Page.UpdateRow | app/add-supplier-payment/page.jsx:38-40 | only the row with the id is edited and ids stay increasing |
| AddSupplierPayment.Page.Submit | app/add-supplier-payment/page.jsx:47-81 | the filled rows are sent; an accepted submit resets the date and leaves one blank row with id 1, anything else leaves the page as it was |
| AddSuppliers.SubmitRequest | app/add-suppliers/page.jsx:31-37 | submit is refused exactly when every name is blank; otherwise the trimmed names are sent |
| AddSuppliers.NamesInRowOrder | app/add-suppliers/page.jsx:27-32 | every sent name is non-empty without surrounding white space, and names are sent in row order, one per non-blank row |
| AddSuppliers.Page.constructor | app/add-suppliers/page.jsx:9 | the page starts with one blank row numbered by the clock |
| AddSuppliers.Page.AddRows | app/add-suppliers/page.jsx:11-17 | three blank rows numbered by the clock are appended; ids stay unique when the reading is later than all of them |
| AddSuppliers.Page.DeleteRow | app/add-suppliers/page.jsx:19-21 | the rows with the id are removed; unique ids stay unique and at most one row goes |
| AddSuppliers.Page.UpdateRow | app/add-suppliers/page.jsx:23-25 | only the row with the id gets the new name and ids stay unique |
| AddSuppliers.Page.Submit | app/add-suppliers/page.jsx:27-52 | the request is sent exactly when the form is valid; an accepted submit leaves one blank row, anything else leaves the rows as they were |
| AddSupplierPayment.IsFormValid | app/add-supplier-payment/page.jsx:42-45 | definition, no contract of its own: a date and some row with a supplier and a payment above 0; SubmitRequest is refused exactly when it fails |
| AddSuppliers.Page.IsFormValid | app/add-suppliers/page.jsx:27-29 | definition, no contract of its own: some row whose name is not blank |
| AddSuppliers.TrimmedIsClean | app/add-suppliers/page.jsx:32 | the trimmed name of a valid row is not empty and neither starts nor ends with white space |
| AddSuppliers.Names | app/add-suppliers/page.jsx:32 | definition, no contract of its own: the trimmed names of the non-blank rows; NamesInRowOrder states that they are clean and in row order |
| AddSuppliers.ValidRow | app/add-suppliers/page.jsx:28-32 | definition, no contract of its own: a name that is not blank after trimming; TrimmedIsClean states what the sent name then is |
| AddSupplierPayment.Payments | app/add-supplier-payment/page.jsx:55-62 | definition, no contract of its own: DraftRows.Select of the filled rows through ToPayment; MissingTaxIsZero states the date and the tax of what is sent |
| AddSupplierPayment.ValidRow | app/add-supplier-payment/page.jsx:44 | definition, no contract of its own: a supplier and a payment above 0; ValidIsFilled states that such a row is also sent |
| UploadBankStatement.LastIndexOf | app/upload-bank-statement/page.jsx:17 | the position is the last occurrence of the character, or -1 when there is none |
| UploadBankStatement.Substring | app/upload-bank-statement/page.jsx:17 | a start of 0 or less gives the whole name, otherwise the name from that position |
| UploadBankStatement.AcceptedIgnoresCase | app/upload-bank-statement/page.jsx:16-19 | for every pair of names: two names equal after lowercasing are accepted or refused together, and every name is accepted exactly when its upper-cased form is |
| UploadBankStatement.LastDotDecides | app/upload-bank-statement/page.jsx:17-19 | for every base and every dot-free ending: `base.ending` is accepted exactly when the ending lowercased is 'xlsx' or 'xls', whatever dots the base holds (so 'report.xlsx.csv' is refused) |
| UploadBankStatement.ResultMessage | app/upload-bank-statement/page.jsx:43-57 | a positive count is a success naming the count; any other count is the 'Upload Failed' message |
| UploadBankStatement.Page.constructor | app/upload-bank-statement/page.jsx:10-13 | the page starts with no file and no messages |
| UploadBankStatement.Page.SelectFile | app/upload-bank-statement/page.jsx:15-28 | a refused file clears the selection and shows the wrong-type error; an accepted one is stored and clears both messages; a stored file is always accepted |
| UploadBankStatement.Page.Upload | app/upload-bank-statement/page.jsx:30-65 | without a selected file nothing changes; with one, a counted reply clears the error and shows the count's message, and a request that throws shows 'Error uploading file: ' and its message with no result |
| LoginForm.Form.constructor | components/login/LoginForm.jsx:10-17 | the form starts empty with no errors |
| LoginForm.Form.ValidateForm | components/login/LoginForm.jsx:21-40 | a blank email or password is required, a password under six UTF-16 code units is too short, and the form is valid exactly when neither error is set |
| LoginForm.Form.HandleChange | components/login/LoginForm.jsx:42-49 | only the named field changes and only its error is cleared |
| LoginForm.Form.Submit | components/login/LoginForm.jsx:108-121 | on every branch the errors are set by the validation rules (email required when blank; password required when blank, too short under six UTF-16 code units); nothing is sent exactly when one is set, otherwise the trimmed email and the password as typed are sent |
| LoginForm.Classify | components/login/LoginForm.jsx:143-161 | the toast follows the first rule the message matches (credentials, account, network) and shows the raw message under 'Login Error' when none matches |
| LoginForm.RawMessageOnlyUnmatched | components/login/LoginForm.jsx:146-158 | a toast text equal to the raw message comes with the default title unless the message is one of the fixed texts |
| LoginForm.CredentialsBeforeAccount | components/login/LoginForm.jsx:147-150 | every message that mentions credentials is an invalid-credentials error, even one that also mentions the account, such as 'user password rejected' |
| LoginForm.ReplaceAll | components/login/LoginForm.jsx:185 | every occurrence of the character is replaced and nothing else changes |
| LoginForm.ToBase64 | components/login/LoginForm.jsx:185 | every '-' becomes '+', every '_' becomes '/', and the length is kept |
| LoginForm.AlphabetRoundTrip | components/login/LoginForm.jsx:185 | the alphabet change is undone by the reverse change, on either alphabet |
| LoginForm.PayloadSegment | components/login/LoginForm.jsx:182-185 | a token with a second dot-separated segment gives that segment in the base64 alphabet, and any other token fails |
| LoginForm.PayloadOfToken | components/login/LoginForm.jsx:184-185 | for a token header.payload.signature the segment taken is the payload |
| UploadBankStatement.Extension | app/upload-bank-statement/page.jsx:17 | a name with a dot gives exactly the lowercased text from its last dot on (a dot position with no dot after it), which starts with that dot and holds no other; a name without a dot gives the whole name lowercased; never longer than the name |
| UploadBankStatement.ExtensionOfLower | app/upload-bank-statement/page.jsx:17 | lowercasing a name first does not change its extension |
| UploadBankStatement.LastDotOfLower | app/upload-bank-statement/page.jsx:17 | lowercasing keeps the position of the last dot |
| UploadBankStatement.LastDotFound | app/upload-bank-statement/page.jsx:17 | a name with a dot has a last dot, and no dot follows it |
| UploadBankStatement.LastDotOfJoin | app/upload-bank-statement/page.jsx:17 | in `base.ending` with a dot-free ending, the last dot is the joining one and the text from it is '.' and the ending |
| UploadBankStatement.Accepted | app/upload-bank-statement/page.jsx:16-20 | definition, no contract of its own: the extension is '.xlsx' or '.xls'; AcceptedIgnoresCase states for all names that case does not matter, and LastDotDecides states for all names that only the text after the last dot decides |
| Js.Or | app/sales-dashboard/page.jsx:117-120 | `v` or else `d`: a truthy value is kept, any falsy one is replaced by the default |
| Js.OrZero | app/manage-item-consumption/page.jsx:197 | a number is kept and NaN becomes 0 |
| Js.OrZeroPositive | app/manage-products/page.jsx:177-178 | defaulting a value to 0 before comparing it with 0 changes nothing: it is above 0 exactly when the value itself is |
| Js.TrimStart | app/add-suppliers/page.jsx:28 | the result is a suffix of the text, no longer than it, does not start with white space, and everything dropped is white space |
| Js.TrimEnd | app/add-suppliers/page.jsx:28 | the result is a prefix of the text, no longer than it, does not end with white space, and everything dropped is white space |
| Js.Trim | components/login/LoginForm.jsx:25 | definition, no contract of its own: white space removed at both ends; TrimEnds and BlankIffAllSpace state its properties |
| Js.TrimEnds | app/add-suppliers/page.jsx:32 | a trimmed text that is not empty neither starts nor ends with white space |
| Js.IsBlank | components/login/LoginForm.jsx:25-31 | definition, no contract of its own: the trimmed text is empty; BlankIffAllSpace characterises it |
| Js.BlankIffAllSpace | components/login/LoginForm.jsx:25-31 | a text is blank exactly when every one of its characters is white space |
| Js.ToLower | app/statement-dashboard/page.jsx:79-86 | same length, each character lowercased |
| Js.ToUpper | components/dashboard/DashboardHeader.jsx:17 | same length, each character uppercased |
| Js.LowerOfUpper | app/statement-dashboard/page.jsx:79-86 | lowercasing an uppercased text gives the lowercased text |
| Js.Utf16Length | components/login/LoginForm.jsx:33 | the length in UTF-16 code units lies between the number of characters and twice it, and equals it when no character is beyond U+FFFF |
| Js.Includes | app/statement-dashboard/page.jsx:87 | definition, no contract of its own: the text has the other as a contiguous part; the three lemmas after it state its properties |
| Js.IncludesTrivial | app/statement-dashboard/page.jsx:87 | every text includes the empty text and itself, so an empty filter keeps every row |
| Js.IncludesPrefix | app/statement-dashboard/page.jsx:87 | a text that includes a joined string includes its first part |
| Js.IncludesTransitive | app/statement-dashboard/page.jsx:87 | inclusion is transitive, so a longer filter keeps no row a shorter one dropped |
| Js.ParseFloat | app/update-product-recipe/page.jsx:78 | the empty text is NaN; after white space and a sign, a text starting with a digit gives a number, and a number comes only from a text that starts with a digit or a '.' there |
| Js.ToNumber | app/add-item-consumption/page.jsx:69 | a blank text converts to 0 |
| Js.ParseInt | app/add-store-items/page.jsx:75 | the empty text is NaN; the result is a number exactly when a digit follows the white space and sign, and then it is a whole number |
| Js.ParseIntVal | app/sales-dashboard/page.jsx:117-120 | a number is truncated toward zero |
| Js.ParseFloatVal | app/create-invoice/page.jsx:222 | definition, no contract of its own: a number is kept, a text is parsed by ParseFloat, anything else is NaN |
| Js.ToNumberVal | app/add-item-purchase/page.jsx:84 | definition, no contract of its own: a number is kept, a text converted by ToNumber, true as 1, false and null as 0, undefined as NaN |
| Js.Round | app/base-item-purchase/page.jsx:102 | the result is within half of the argument, halves rounded up |
| Js.Trunc | app/sales-dashboard/page.jsx:117-120 | the integer part toward zero: below the argument by less than 1 for a non-negative one, above it by less than 1 for a negative one |
| Js.NatToString | app/create-invoice/page.jsx:160-162 | a non-empty string of digits |
| Js.PadStart | app/create-invoice/page.jsx:160-162 | the result has the target width or the text's length if longer, ends with the text, and is filled in front with the pad character |
| Js.NatToStringValue | app/create-invoice/page.jsx:160-162 | reading the digits of `String(n)` back gives n |
| Js.ParseNatToString | app/create-invoice/page.jsx:160-162 | `parseInt` and `parseFloat` of `String(n)` give back n |
| Js.DigitsParse | app/add-store-items/page.jsx:75 | a non-empty digit string parses to its value under both parsers |
| Js.DigitsToNumber | app/add-item-consumption/page.jsx:69 | a non-empty digit string converts to its value |
| Js.ParseIntOfDigitStart | app/sales-dashboard/page.jsx:117-120 | a text starting with a digit parses to the value of its leading digit run |
| Js.ParseIntDigitsThen | app/sales-dashboard/page.jsx:117-120 | a digit string followed by text that does not start with a digit parses to the digits' value |
| Js.SliceLast | lib/api.js:122 | the last n characters, or the whole text when shorter, and the text is what comes before them followed by them |
| Js.IndexOf | components/dashboard/DashboardHeader.jsx:17 | the index of the first occurrence of the character, or the length when there is none |
| Js.Split | components/dashboard/DashboardHeader.jsx:17 | at least one piece |
| Js.Join | components/dashboard/DashboardHeader.jsx:17 | definition, no contract of its own: the pieces with the separator between them; SplitJoin relates it to Split |
| Js.SplitJoin | components/login/LoginForm.jsx:184 | splitting the joined pieces again gives the pieces back when none contains the separator |
| Js.Sum | app/base-item-purchase/page.jsx:147 | definition, no contract of its own: the reduce of a sum from 0; the lemmas after it state its properties |
| Js.SumAppend | app/base-item-purchase/page.jsx:147 | the sum over two lists joined is the sum of the two sums |
| Js.SumNonNegative | app/base-item-purchase/page.jsx:147 | a sum of terms that are never negative is never negative |
| Js.SumCongruent | app/base-item-purchase/page.jsx:196-199 | two term functions that agree on the list give the same sum |
| Js.SumScale | app/base-item-purchase/page.jsx:196-199 | multiplying every term by a constant multiplies the sum by it |
| Js.Add | app/product-recipe-detail/page.jsx:81 | a number exactly when both operands are, and then their sum |
| Js.Mul | app/add-item-purchase/page.jsx:85 | a number exactly when both operands are, and then their product |
| Js.Div | app/add-item-purchase/page.jsx:85 | for a divisor other than 0: a number exactly when both operands are, and then the quotient times the divisor is the dividend |
| Js.SumNum | app/product-recipe-detail/page.jsx:81 | definition, no contract of its own: the reduce of a sum from 0 over terms that may be NaN |
| Js.SumNumAppend | app/product-recipe-detail/page.jsx:81 | the sum over two lists joined is the number sum of the two sums |
| Js.SumNumFinite | app/product-recipe-detail/page.jsx:81 | the sum is a number exactly when every term is, and then it is the real sum of the terms |

## Left out

- The network is not modelled. `fetch` inside `apiRequest`, `fileUploadRequest` and the login call are out, and so is every `load*` function (e.g. `loadDropdownData`, `fetchInvoiceDetails`). A reply's `count`, `id` or `list` is a parameter of the handler that uses it. A thrown error is modelled as the failure branch beside an unaccepted count; its message text is modelled only where the page shows it (`UploadBankStatement.Page.Upload`).
- Browser storage is not modelled. The parsed `userData` record is an optional input (`Api.User`). `getUserData`, `getOutletId`, `getRoleId`, `clearAuthData` and the storing of a successful login are left out.
- `new URL`: `Api.BuildUrl` stops at the normalised string, and the URL parser's own resolution is not modelled.
- Clock, time zone and locale are parameters: "today", "yesterday" and `Date.now()` are inputs, and `toLocaleDateString`, `toISOString` and the seven-day due date are not computed.
- `Math.random()` is an input: the three invoice digits are a parameter.
- Number presentation is not modelled. `toFixed(2)`, `toLocaleString`, the pages' `formatCurrency` (sales and invoice pages) and the thousands separators are out, so previews carry the exact `real` value; the statement page's falsy case of `formatCurrency` is modelled.
- `parseFloat`, `parseInt` and `Number` read decimal literals (sign, digits, fraction, exponent) only. `Infinity`, hexadecimal and other radix forms are not modelled.
- Js.ParseFloat: its contract states when the result is a number, not which number for a fraction or an exponent; the value is given by the definition (`ScanUnsigned`), and `DigitsParse` and `ParseNatToString` state it for digit strings.
- Js.ToNumber: its contract states only the blank case; other values are given by the definition, and `DigitsToNumber` states them for digit strings.
- Js.ParseIntVal: a number is truncated toward zero directly. JavaScript first turns it into text, which is exponent notation from 1e21 up and below 1e-6, so there `parseInt` reads only the leading digits (1e21 gives 1, 1e-7 gives 1).
- Js.ToLower and Js.ToUpper change the case of ASCII letters only; JavaScript also maps the other Unicode letters (e.g. accented letters, the German sharp s becoming "SS" in upper case, which changes the length).
- Strings are sequences of Unicode characters. `LoginForm` measures the password in UTF-16 code units (`Js.Utf16Length`) as `.length` does; elsewhere an index or a length counts characters.
- DashboardHeader.Initials: `n[0]` is the first UTF-16 code unit of a word, half a character for a word starting beyond U+FFFF; the model takes the whole first character.
- `Js.Val` has no NaN value. Values typed into boxes or received as JSON are either strings or finite numbers; NaN only appears as a `Js.Num` after parsing.
- JavaScript objects built from keys are modelled as Dafny `map`s, so key order (query-string order, JSON text) is not modelled.
- Api.PrepareRequest: a body is the merged map itself, so an entry whose value is undefined stays in it, while `JSON.stringify` leaves such keys out of the text that is sent.
- Plain-object prototype keys are not modelled, e.g. a group named `constructor` in the grouping by base item.
- A department list is a sequence of primitives. `JSON.stringify` of it is modelled as the sequence itself (absent versus present list), which is what the order-sensitive comparison needs.
- The Google sign-in flow (script loading, prompt, `atob`, `decodeURIComponent` and `JSON.parse` of the token payload) is out; `LoginForm.PayloadSegment` stops at the alphabet change.
- The invoice PDF path (html2canvas and jsPDF) is not computed. Whether it completes is the `pdfMade` input of `CreateInvoice.Page.Generate`, which fails with the catch's message when it does not. As written it never completes: the list given to `Promise.all` is empty, so reading `default` off its first entry throws.
- XLSX export on every dashboard is out; it only formats rows for a file.
- The bank-statement file's content and the `FormData` upload are out: a file is its name.
- The manage-departments page is the same handler set as manage-suppliers over a name, so both are `NameTable`.
- The `handleDelete` of the update-recipe page is out. It is a confirmation plus a request with no state change besides a reload.
- The date-filter handler of the base-item page is out because it only sets its two dates from "today"; the same choice is modelled by `ManageSupplierPurchase.FilteredDates`.
- Rendering, styling, navigation, timers (toasts, redirects), the click-outside listener of the multi-select, and the DOM measurements of `moveCarousel` are out. The card count and cards per view are inputs of `Carousel.Move`.
- Asynchronous ordering and React batching are not modelled. Each handler is one synchronous state change, and an effect that recomputes a row's flag runs as part of the edit that triggers it.
- BaseItemPurchase.ScaleLine: requires a non-zero recipe quantity, because the source divides by it without a guard.
- BaseItemPurchase.CostPerUnit: requires a non-zero purchase quantity, because the source divides by it without a guard.
- BaseItemPurchase.Page.UpdateAllQuantities: requires a non-zero original measure and non-zero recipe quantities for an accepted measure, because the source divides by both without a guard.
- CloneProductRecipe.PriceOf: requires a non-zero pack size, because the source divides by it without a guard.
- UpdateProductRecipe.IngredientRow.NewTotalPrice: requires a non-zero pack size, because the source divides by it without a guard.
- SnapshotTable.Table.Load: requires the fetched ids to be distinct. The pages do not check this themselves, because the ids are the server's primary keys.
- StockItems.ItemPrice: requires every pack size to be non-zero, because the preview divides by it without a guard.
- ManageItemPurchase.ItemRef: the pack size `unitQuantity` is a number. A missing item gives 1 through `|| 1`, but a pack size that is missing, null or text, which `|| 1` and the `*` coercion would handle, is not represented.
- BaseItemPurchase.SubmitRequest: models the request as intended, with the corrected line rule `Items` (see Findings); the code as written is `ItemsAsWritten`, and `ItemsAgreeAwayFromZero` states that the two differ only where a rescaled quantity or price is 0.
- BaseItemPurchase.Page.Submit: sends `SubmitRequest`, so it too follows the corrected line rule; the page total shown above the form is `TotalPrice`, which equals the written `TotalPriceAsWritten` when no rescaled price is 0 (`TotalPricesAgreeAwayFromZero`).
- AddItemPurchase.Page.Submit: leaves the three fresh rows of `RowsAfterSuccess` after an accepted submit, the intended state (see Findings); as written the submitted rows stay in front of them, which `RowsAfterSuccessAsWritten` states.
- CreateInvoice.Page.Generate: uses the corrected price check `HasInvalidPrice` (see Findings); the written check is `HasInvalidPriceAsWritten`, and `PriceChecksAgreeOnNumbers` states that the two agree whenever every price parses.
- ManageProducts.CountWithSales: its own ensures states only the bound by the list length; which products it counts is stated by `ManageProducts.CountZeroIff` beside it.

## Findings

| source | as written | input that shows it | evidently intended | confidence | as-written member | corrected member |
|---|---|---|---|---|---|---|
| app/manage-users/page.jsx:40-73 | the snapshot stores a missing department list as [], but the dirty check compares the JSON of the current (missing) list with the JSON of [] | a user whose record has no `departments`; its fresh snapshot already differs, and putting back its old name keeps it marked changed | a missing list and [] compare equal, so a fresh snapshot is clean and reverting an edit clears the mark | not executed | ManageUsers.NoDepartmentsAlwaysDirty, ManageUsers.RevertedEditStaysDirty | ManageUsers.SnapshotNeverDiffers |
| app/base-item-purchase/page.jsx:101-144 | each request line takes the rescaled quantity and price only when they are truthy, else the recipe's | 300 GM of an ingredient rescaled by 1/1000 rounds to 0 GM, and the request then carries the full 300 GM and its full price | the rescaled line is sent whenever there is one, including a quantity rounded to 0 | not executed | BaseItemPurchase.ItemsAsWritten, BaseItemPurchase.RoundedToZeroSendsRecipeAmount | BaseItemPurchase.Items, BaseItemPurchase.ItemsFollowRescale |
| app/create-invoice/page.jsx:222 | the price check rejects a line only when its parsed price compares as at most 0, and NaN compares as neither | a line whose price box was emptied: its price parses to NaN, the check passes with a line total of 0, and the handler goes on to the PDF step | every line must have a price that is a number above 0 | not executed | CreateInvoice.HasInvalidPriceAsWritten, CreateInvoice.EmptiedPricePasses | CreateInvoice.HasInvalidPrice, CreateInvoice.PriceCheckIff |
| app/add-item-purchase/page.jsx:123-129 | after a successful submit the rows are cleared, and then `addRow` (line 61) appends three blank rows to the rows the handler started with, so the cleared list is overwritten | any accepted submit: the submitted rows stay on the page and a second click sends the same purchases again | the form holds only three fresh blank rows after success | not executed | AddItemPurchase.RowsAfterSuccessAsWritten, AddItemPurchase.ResubmitsAsWritten | AddItemPurchase.RowsAfterSuccess, AddItemPurchase.NothingToResend |

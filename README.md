# Open tables: the order state of a point-of-sale page

This project is a Dafny model of the ordering page in `src/app/page.tsx`. The
page keeps a list of open tables (accounts). Each table holds order lines, and
each line is a product code with a quantity. Four handlers change that list:

- adding the selected product to a table merges it into the table's lines;
- removing a product either deletes its line or lowers its quantity;
- closing a table drops it;
- opening a table appends a new, empty one.

Layout:

- `wrappers.dfy` (module `Wrappers`): `Option`, for the page's `string | null`
  selection.
- `decimal.dfy` (module `Decimal`): the decimal numeral of a table id, as the
  template literal `Table ${newTableId}` renders it, and its inverse.
- `lines.dfy` (module `Lines`): the `Order` record and `findIndex` over a
  table's lines. It also holds the merge (`AddLine`) and the threshold removal
  (`RemoveLine`) as functions, with their properties.
- `tables.dfy` (module `Tables`): the `Account` record and `findIndex` over the
  tables. It also holds the four list changes as functions (`AddToAccount`,
  `RemoveFromAccount`, `CloseAccount`, `OpenTable`) and the invariants they keep.
- `home.dfy` (module `Page`): class `Home`, with the page's three state fields
  `accounts`, `selectedProductId` and `selectedProductQuantity`. Its handlers
  are imperative methods: they look up indices with loops, rebuild the lines
  and assign the fields. Each is proved equal to the function in `Tables`.

The invariant is `Tables.ValidAccounts`: within a table there is at most one
line per product, and every quantity is at least 1. Removal keeps it for any
amount, because a line is either spliced out or keeps more than the amount
removed. Adding keeps uniqueness for any amount. Adding keeps positivity only
when the selected quantity is at least 1. The page does not enforce that: the
`min="1"` on the input is not checked by the code. So the model states this as
a hypothesis.

Uniqueness alone is also tracked as `Tables.UniqueAccounts`. It holds after
every handler for any quantity, zero and negative included, so it survives
even when a bad quantity has broken positivity.

The model follows the code as written; in particular:

- The new table's id is the current number of tables plus one. After a close,
  this can repeat an id that is still open (`Tables.OpenAfterCloseReusesId`).
  Freshness is proved only for lists built by opening alone
  (`Tables.OpenTablesNumbered`).
- Closing removes every table with the id, not only one.
- Adding does not check that the quantity is at least 1.
- Adding and removing act on the first table with the id and the first line
  with the product, as `findIndex` does.
- An unsuccessful add leaves the selection as it was. Only a successful add
  resets it to nothing and 1.

## Model

| member | source | states |
|---|---|---|
| `Decimal.DecimalString` | src/app/page.tsx:129 | the rendered id is a non-empty string of decimal digits without a leading zero |
| `Decimal.DecimalRoundTrip` | src/app/page.tsx:129 | reading the rendered numeral back gives the id that was rendered |
| `Decimal.DecimalStringInjective` | src/app/page.tsx:129 | two different ids never render as the same text |
| `Lines.OrderIndex` | src/app/page.tsx:69-71 | the result is the index of the first line for the product, and no earlier line has it; or -1, and no line has it |
| `Lines.FindOrder` | src/app/page.tsx:69-71 | the search loop returns exactly that first-match index, or -1 |
| `Lines.AddLineMerges` | src/app/page.tsx:72-74 | when a line for the product exists, it grows by exactly the added quantity, no line is added, and every other line keeps its place and value |
| `Lines.AddLineAppends` | src/app/page.tsx:75-79 | when there is no line for the product, exactly one line (product, quantity) is appended after the unchanged existing lines |
| `Lines.AddLineQuantity` | src/app/page.tsx:69-80 | seen as a cart, adding raises the product's quantity by exactly the added amount and leaves every other product's quantity unchanged |
| `Lines.AddLinePreservesValid` | src/app/page.tsx:69-80 | at most one line per product survives any add; all quantities stay at least 1 when the added amount is at least 1 |
| `Lines.AddLineMergeLaw` | src/app/page.tsx:69-80 | adding q1 and then q2 of a product gives the same lines as adding q1 + q2 at once |
| `Lines.RemoveLineDeletes` | src/app/page.tsx:102-107 | removing at least the line's quantity splices out exactly that line; the lines before and after it keep their order |
| `Lines.RemoveLineDecrements` | src/app/page.tsx:108-111 | removing less than the line's quantity keeps the line in place, lowered by exactly the amount and still at least 1; other lines are unchanged |
| `Lines.RemoveLineMiss` | src/app/page.tsx:98-101 | removing a product that has no line changes nothing |
| `Lines.RemoveLineQuantity` | src/app/page.tsx:98-112 | with one line per product: the cart quantity drops to 0 when the amount reaches it, otherwise falls by exactly the amount; other products are unaffected |
| `Lines.RemoveLinePreservesValid` | src/app/page.tsx:98-112 | removing any amount keeps at most one line per product, and keeps every quantity at least 1 when all were |
| `Tables.AccountIndex` | src/app/page.tsx:64-66 | the result is the index of the first table with the id, and no earlier table has it; or -1, and no table has it |
| `Tables.FindAccount` | src/app/page.tsx:93-95 | the search loop returns exactly that first-match index, or -1 |
| `Tables.AddToAccountMiss` | src/app/page.tsx:64-67 | adding to an id that no table has leaves the list unchanged |
| `Tables.AddToAccountHit` | src/app/page.tsx:67-81 | only the first table with the id changes, and only its lines; its id and name stay, and all other tables stay as they were |
| `Tables.AddToAccountPreservesValid` | src/app/page.tsx:62-86 | adding at least 1 unit keeps every table's lines unique per product and positive |
| `Tables.AddToAccountPreservesUnique` | src/app/page.tsx:64-80 | adding any amount, zero or negative included, keeps every table at most one line per product |
| `Tables.RemoveFromAccountMiss` | src/app/page.tsx:93-96 | removing from an id that no table has leaves the list unchanged |
| `Tables.RemoveFromAccountHit` | src/app/page.tsx:96-114 | only the first table with the id changes, and only its lines; all other tables stay as they were |
| `Tables.RemoveFromAccountNoLine` | src/app/page.tsx:96-101 | removing a product the table has no line for leaves the whole list unchanged |
| `Tables.RemoveFromAccountPreservesUnique` | src/app/page.tsx:93-112 | removing any amount keeps every table at most one line per product |
| `Tables.RemoveFromAccountPreservesValid` | src/app/page.tsx:88-116 | removing any amount keeps every table's lines unique per product and positive |
| `Tables.CloseAccount` | src/app/page.tsx:118-123 | a table remains exactly when it was open and has a different id; the list never grows |
| `Tables.CloseAccountAbsent` | src/app/page.tsx:118-123 | closing an id that no table has changes nothing |
| `Tables.CloseAccountIdempotent` | src/app/page.tsx:118-123 | closing the same id twice gives the same list as closing it once |
| `Tables.CloseAccountConcat` | src/app/page.tsx:118-123 | closing acts piecewise on a split list, so the remaining tables keep their original relative order |
| `Tables.CloseAccountPreservesValid` | src/app/page.tsx:118-123 | the tables that remain are still valid |
| `Tables.OpenTableAppends` | src/app/page.tsx:125-131 | one table is appended after the unchanged old ones; its id is the old length + 1, it has no lines, and its name is exactly "Table " followed by the shortest decimal numeral of that id, which reads back as the id |
| `Tables.OpenTablePreservesValid` | src/app/page.tsx:125-131 | opening keeps every table valid |
| `Tables.OpenTablesNumbered` | src/app/page.tsx:125-131 | opening n tables on an empty page numbers them 1..n in order, with pairwise distinct ids |
| `Tables.OpenAfterCloseReusesId` | src/app/page.tsx:118-131 | open three tables, close table 2, open another: two open tables now share id 3 and the name "Table 3" |
| `Page.Home.constructor` | src/app/page.tsx:23-27 | the page starts with no selection, quantity 1 and no tables, which is a valid state |
| `Page.Home.LoadAccounts` | src/app/page.tsx:52-58 | the loaded account list replaces the tables; the selection is untouched |
| `Page.Home.SelectProduct` | src/app/page.tsx:146-148 | the picked product becomes the selection |
| `Page.Home.SetSelectedQuantity` | src/app/page.tsx:158-163 | the typed quantity becomes the selected quantity |
| `Page.Home.HandleAddProduct` | src/app/page.tsx:62-86 | with no selection or no table with the id, nothing changes, selection included; otherwise the tables become `AddToAccount` of the old ones and the selection resets to nothing and 1; validity is kept when the selected quantity is at least 1, and one line per product is kept for any quantity |
| `Page.Home.HandleRemoveProduct` | src/app/page.tsx:88-116 | the tables become `RemoveFromAccount` of the old ones; the selection is untouched; validity and one line per product are kept |
| `Page.Home.HandleCloseAccount` | src/app/page.tsx:118-123 | the tables become `CloseAccount` of the old ones; no remaining table has the id; validity and one line per product are kept |
| `Page.Home.HandleOpenNewTable` | src/app/page.tsx:125-131 | the tables become `OpenTable` of the old ones; validity and one line per product are kept |

## Left out

- The two catalog fetches and the mapping of the external field names (src/app/page.tsx:30-60) are network I/O. The product catalog is not modelled, because the handlers never read it. The account catalog enters as the argument of `Page.Home.LoadAccounts`, and may be any list.
- The rendering, the price lookup for display and the `price` field (src/app/page.tsx:8, 133-233) are display only. No handler reads them.
- React's state scheduling is not modelled: batching, and handlers that close over an older `accounts`. Each `set...` call is a plain field assignment, done as soon as the handler runs.
- `parseInt` can yield `NaN` (src/app/page.tsx:162, 208). Quantities are mathematical integers, so `NaN` and floating-point rounding above 2^53 are outside the model.
- The handlers change the shared `orders` arrays in place, through `push`, `splice`, `+=` and `-=` on a shallow copy of the list. The model treats lines as values. It does not capture that the discarded old list shares those arrays. Nothing reads the old list afterwards.
- `Decimal.DecimalString` renders non-negative integers only. That covers every id the page generates, which is length + 1.

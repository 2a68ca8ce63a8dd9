/**
 * The list of open tables (accounts) and the four changes the page makes to
 * it: adding a product to a table, removing a product from it, closing a
 * table and opening a new one. Each change is a function from the old list to
 * the new one; the page's handlers are proved equal to them.
 */
module Tables {

  import opened Lines
  import opened Decimal

  /** An open table: its id, its display name and its order lines. */
  datatype Account = Account(id: int, name: string, orders: seq<Order>)

  /** `r` is what `findIndex` returns when looking for the account `id`: the
      first account with that id, or -1 when none has it. */
  ghost predicate IsFirstAccount(accounts: seq<Account>, id: int, r: int) {
    && -1 <= r < |accounts|
    && (0 <= r ==> accounts[r].id == id)
    && forall k :: 0 <= k < |accounts| && (r == -1 || k < r) ==> accounts[k].id != id
  }

  lemma FirstAccountUnique(accounts: seq<Account>, id: int, r1: int, r2: int)
    requires IsFirstAccount(accounts, id, r1) && IsFirstAccount(accounts, id, r2)
    ensures r1 == r2
  {
  }

  /** Index of the first account with `id`, -1 if there is none. */
  function AccountIndex(accounts: seq<Account>, id: int): (r: int)
    ensures IsFirstAccount(accounts, id, r)
  {
    if accounts == [] then -1
    else if accounts[0].id == id then 0
    else
      var r := AccountIndex(accounts[1..], id);
      if r == -1 then -1 else r + 1
  }

  /** `accounts.findIndex((account) => account.id === id)`. */
  method FindAccount(accounts: seq<Account>, id: int) returns (i: int)
    ensures i == AccountIndex(accounts, id)
  {
    i := 0;
    while i < |accounts| && accounts[i].id != id
      invariant 0 <= i <= |accounts|
      invariant forall k :: 0 <= k < i ==> accounts[k].id != id
    {
      i := i + 1;
    }
    if i == |accounts| {
      i := -1;
    }
    FirstAccountUnique(accounts, id, i, AccountIndex(accounts, id));
  }

  /** Every table has at most one line per product and no line below 1. */
  ghost predicate ValidAccounts(accounts: seq<Account>) {
    forall a :: a in accounts ==> ValidOrders(a.orders)
  }

  /** Every table has at most one line per product. Unlike `ValidAccounts`,
      this survives any quantity the page's input lets through. */
  ghost predicate UniqueAccounts(accounts: seq<Account>) {
    forall a :: a in accounts ==> UniqueProducts(a.orders)
  }

  /** The list after adding `quantity` of `productId` to the first table with
      id `accountId`; unchanged when there is no such table. */
  function AddToAccount(accounts: seq<Account>, accountId: int, productId: string, quantity: int): seq<Account> {
    var a := AccountIndex(accounts, accountId);
    if a == -1 then accounts
    else accounts[a := accounts[a].(orders := AddLine(accounts[a].orders, productId, quantity))]
  }

  /** The list after removing `quantityToRemove` of `productId` from the first
      table with id `accountId`; unchanged when there is no such table. */
  function RemoveFromAccount(accounts: seq<Account>, accountId: int, productId: string, quantityToRemove: int): seq<Account> {
    var a := AccountIndex(accounts, accountId);
    if a == -1 then accounts
    else accounts[a := accounts[a].(orders := RemoveLine(accounts[a].orders, productId, quantityToRemove))]
  }

  /** `accounts.filter((account) => account.id !== accountId)`: the tables
      without `accountId`, in their original order. */
  function CloseAccount(accounts: seq<Account>, accountId: int): (r: seq<Account>)
    ensures forall a :: a in r <==> a in accounts && a.id != accountId
    ensures |r| <= |accounts|
  {
    if accounts == [] then []
    else if accounts[0].id == accountId then CloseAccount(accounts[1..], accountId)
    else [accounts[0]] + CloseAccount(accounts[1..], accountId)
  }

  /** The table that opening creates when the list holds `n - 1` tables. */
  function NewTable(n: nat): Account {
    Account(n, "Table " + DecimalString(n), [])
  }

  /** The list after opening a table: id = current length + 1, appended. */
  function OpenTable(accounts: seq<Account>): seq<Account> {
    accounts + [NewTable(|accounts| + 1)]
  }

  // ----- Adding and removing on a table -----

  /** Adding to a table that is absent changes nothing. */
  lemma AddToAccountMiss(accounts: seq<Account>, accountId: int, productId: string, quantity: int)
    requires forall a :: a in accounts ==> a.id != accountId
    ensures AddToAccount(accounts, accountId, productId, quantity) == accounts
  {
  }

  /** Adding touches only the first table with the id, and only its lines:
      its id and name stay, and every other table is left as it was. */
  lemma AddToAccountHit(accounts: seq<Account>, accountId: int, productId: string, quantity: int)
    requires AccountIndex(accounts, accountId) != -1
    ensures var r, a := AddToAccount(accounts, accountId, productId, quantity), AccountIndex(accounts, accountId);
      && |r| == |accounts|
      && r[a].id == accountId && r[a].name == accounts[a].name
      && r[a].orders == AddLine(accounts[a].orders, productId, quantity)
      && forall k :: 0 <= k < |accounts| && k != a ==> r[k] == accounts[k]
  {
  }

  /** Adding at least 1 unit keeps every table valid. */
  lemma AddToAccountPreservesValid(accounts: seq<Account>, accountId: int, productId: string, quantity: int)
    requires ValidAccounts(accounts) && quantity >= 1
    ensures ValidAccounts(AddToAccount(accounts, accountId, productId, quantity))
  {
  }

  /** Adding any amount, zero or negative included, keeps every table at
      most one line per product. */
  lemma AddToAccountPreservesUnique(accounts: seq<Account>, accountId: int, productId: string, quantity: int)
    requires UniqueAccounts(accounts)
    ensures UniqueAccounts(AddToAccount(accounts, accountId, productId, quantity))
  {
    var a := AccountIndex(accounts, accountId);
    if a != -1 {
      assert accounts[a] in accounts;
      AddLinePreservesValid(accounts[a].orders, productId, quantity);
    }
  }

  /** Removing from a table that is absent changes nothing. */
  lemma RemoveFromAccountMiss(accounts: seq<Account>, accountId: int, productId: string, quantityToRemove: int)
    requires forall a :: a in accounts ==> a.id != accountId
    ensures RemoveFromAccount(accounts, accountId, productId, quantityToRemove) == accounts
  {
  }

  /** Removing touches only the first table with the id, and only its lines. */
  lemma RemoveFromAccountHit(accounts: seq<Account>, accountId: int, productId: string, quantityToRemove: int)
    requires AccountIndex(accounts, accountId) != -1
    ensures var r, a := RemoveFromAccount(accounts, accountId, productId, quantityToRemove), AccountIndex(accounts, accountId);
      && |r| == |accounts|
      && r[a].id == accountId && r[a].name == accounts[a].name
      && r[a].orders == RemoveLine(accounts[a].orders, productId, quantityToRemove)
      && forall k :: 0 <= k < |accounts| && k != a ==> r[k] == accounts[k]
  {
  }

  /** Removing a product the table has no line for changes nothing. */
  lemma RemoveFromAccountNoLine(accounts: seq<Account>, accountId: int, productId: string, quantityToRemove: int)
    requires AccountIndex(accounts, accountId) != -1
    requires OrderIndex(accounts[AccountIndex(accounts, accountId)].orders, productId) == -1
    ensures RemoveFromAccount(accounts, accountId, productId, quantityToRemove) == accounts
  {
  }

  /** Removing any amount keeps every table at most one line per product. */
  lemma RemoveFromAccountPreservesUnique(accounts: seq<Account>, accountId: int, productId: string, quantityToRemove: int)
    requires UniqueAccounts(accounts)
    ensures UniqueAccounts(RemoveFromAccount(accounts, accountId, productId, quantityToRemove))
  {
    var a := AccountIndex(accounts, accountId);
    if a != -1 {
      assert accounts[a] in accounts;
      RemoveLinePreservesValid(accounts[a].orders, productId, quantityToRemove);
    }
  }

  /** Removing any amount keeps every table valid. */
  lemma RemoveFromAccountPreservesValid(accounts: seq<Account>, accountId: int, productId: string, quantityToRemove: int)
    requires ValidAccounts(accounts)
    ensures ValidAccounts(RemoveFromAccount(accounts, accountId, productId, quantityToRemove))
  {
  }

  // ----- Closing a table -----

  /** Closing an id no table has changes nothing. */
  lemma {:induction false} CloseAccountAbsent(accounts: seq<Account>, accountId: int)
    requires forall a :: a in accounts ==> a.id != accountId
    ensures CloseAccount(accounts, accountId) == accounts
  {
    if accounts != [] {
      assert accounts[0] in accounts;
      CloseAccountAbsent(accounts[1..], accountId);
    }
  }

  /** Closing the same id twice is closing it once. */
  lemma CloseAccountIdempotent(accounts: seq<Account>, accountId: int)
    ensures CloseAccount(CloseAccount(accounts, accountId), accountId) == CloseAccount(accounts, accountId)
  {
  }

  /** Closing works piecewise along the list, so the tables that stay keep
      their original relative order. */
  lemma {:induction false} CloseAccountConcat(front: seq<Account>, back: seq<Account>, accountId: int)
    ensures CloseAccount(front + back, accountId) == CloseAccount(front, accountId) + CloseAccount(back, accountId)
  {
    if front != [] {
      assert (front + back)[1..] == front[1..] + back;
      CloseAccountConcat(front[1..], back, accountId);
    } else {
      assert front + back == back;
    }
  }

  /** Closing keeps every remaining table valid. */
  lemma CloseAccountPreservesValid(accounts: seq<Account>, accountId: int)
    requires ValidAccounts(accounts)
    ensures ValidAccounts(CloseAccount(accounts, accountId))
  {
  }

  // ----- Opening a table -----

  /** Opening appends one table, after the existing ones, which stay as they
      were; the new table has no lines, its id is the old length + 1 and its
      name is "Table " followed by the decimal numeral of that id. */
  lemma OpenTableAppends(accounts: seq<Account>)
    ensures var r := OpenTable(accounts);
      && |r| == |accounts| + 1
      && r[..|accounts|] == accounts
      && r[|accounts|].id == |accounts| + 1
      && r[|accounts|].orders == []
      && r[|accounts|].name == "Table " + DecimalString(|accounts| + 1)
      && r[|accounts|].name[..6] == "Table "
      && IsDigits(r[|accounts|].name[6..])
      && DecimalValue(r[|accounts|].name[6..]) == r[|accounts|].id
  {
    var r := OpenTable(accounts);
    assert r[|accounts|].name[6..] == DecimalString(|accounts| + 1);
    DecimalRoundTrip(|accounts| + 1);
  }

  lemma OpenTablePreservesValid(accounts: seq<Account>)
    requires ValidAccounts(accounts)
    ensures ValidAccounts(OpenTable(accounts))
  {
  }

  /** The list after opening `n` tables on an empty page. */
  function OpenTables(n: nat): seq<Account> {
    if n == 0 then [] else OpenTable(OpenTables(n - 1))
  }

  /** Without any close, opening numbers the tables 1, 2, … n in order, so
      their ids and their names are all distinct. */
  lemma {:induction false} OpenTablesNumbered(n: nat)
    ensures |OpenTables(n)| == n
    ensures forall k :: 0 <= k < n ==> OpenTables(n)[k] == NewTable(k + 1)
    ensures forall j, k :: 0 <= j < k < n ==> OpenTables(n)[j].id != OpenTables(n)[k].id
  {
    if n > 0 {
      OpenTablesNumbered(n - 1);
    }
  }

  /** The id rule does not give fresh ids once a table has been closed: open
      three tables, close table 2, open another — it gets id 3 again, beside
      the table 3 that is still open. */
  lemma OpenAfterCloseReusesId()
    ensures var r := OpenTable(CloseAccount(OpenTables(3), 2));
      && |r| == 3
      && r[1].id == 3 && r[2].id == 3
      && r[1].name == r[2].name
  {
  }
}

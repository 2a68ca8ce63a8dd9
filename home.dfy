/**
 * The ordering page's state and its handlers. The page keeps three pieces of
 * state — the open tables, the product picked in the selector and the
 * quantity typed beside it — and each handler replaces them as the page's
 * `setAccounts`, `setSelectedProductId` and `setSelectedProductQuantity` do.
 */
module Page {

  import opened Wrappers
  import opened Lines
  import opened Tables

  class Home {
    var selectedProductId: Option<string>
    var selectedProductQuantity: int
    var accounts: seq<Account>

    /** Every open table has at most one line per product, none below 1. */
    ghost predicate Valid()
      reads this
    {
      ValidAccounts(accounts)
    }

    /** The initial state: nothing selected, quantity 1, no tables. */
    constructor ()
      ensures selectedProductId == None && selectedProductQuantity == 1 && accounts == []
      ensures Valid()
    {
      selectedProductId := None;
      selectedProductQuantity := 1;
      accounts := [];
    }

    /** The account catalog has arrived: it replaces the list of tables. */
    method LoadAccounts(seed: seq<Account>)
      modifies this`accounts
      ensures accounts == seed
    {
      accounts := seed;
    }

    /** The product selector changed. */
    method SelectProduct(productId: string)
      modifies this`selectedProductId
      ensures selectedProductId == Some(productId)
    {
      selectedProductId := Some(productId);
    }

    /** A quantity input changed. */
    method SetSelectedQuantity(quantity: int)
      modifies this`selectedProductQuantity
      ensures selectedProductQuantity == quantity
    {
      selectedProductQuantity := quantity;
    }

    /** Adds the selected quantity of the selected product to the first table
        with id `accountId` and clears the selection. Without a selection, or
        without such a table, nothing changes — the selection included. */
    method HandleAddProduct(accountId: int)
      modifies this
      ensures old(selectedProductId).None? || AccountIndex(old(accounts), accountId) == -1 ==>
        && accounts == old(accounts)
        && selectedProductId == old(selectedProductId)
        && selectedProductQuantity == old(selectedProductQuantity)
      ensures old(selectedProductId).Some? && AccountIndex(old(accounts), accountId) != -1 ==>
        && accounts == AddToAccount(old(accounts), accountId, old(selectedProductId).value, old(selectedProductQuantity))
        && selectedProductId == None
        && selectedProductQuantity == 1
      ensures old(Valid()) && old(selectedProductQuantity) >= 1 ==> Valid()
      ensures old(UniqueAccounts(accounts)) ==> UniqueAccounts(accounts)
    {
      if selectedProductId.Some? {
        var productId := selectedProductId.value;
        var accountIndex := FindAccount(accounts, accountId);
        if accountIndex != -1 {
          ghost var before := accounts;
          var newAccounts := accounts;
          var orders := newAccounts[accountIndex].orders;
          var existingOrderIndex := FindOrder(orders, productId);
          if existingOrderIndex != -1 {
            var line := orders[existingOrderIndex];
            orders := orders[existingOrderIndex := line.(quantity := line.quantity + selectedProductQuantity)];
          } else {
            orders := orders + [Order(productId, selectedProductQuantity)];
          }
          newAccounts := newAccounts[accountIndex := newAccounts[accountIndex].(orders := orders)];
          if ValidAccounts(before) && selectedProductQuantity >= 1 {
            AddToAccountPreservesValid(before, accountId, productId, selectedProductQuantity);
          }
          if UniqueAccounts(before) {
            AddToAccountPreservesUnique(before, accountId, productId, selectedProductQuantity);
          }
          accounts := newAccounts;
          selectedProductId := None;
          selectedProductQuantity := 1;
        }
      }
    }

    /** Removes `quantityToRemove` of `productId` from the first table with id
        `accountId`: the whole line when the amount reaches its quantity,
        otherwise that many units. Without such a table or line, nothing
        changes. The selection is never touched. */
    method HandleRemoveProduct(accountId: int, productId: string, quantityToRemove: int)
      modifies this`accounts
      ensures accounts == RemoveFromAccount(old(accounts), accountId, productId, quantityToRemove)
      ensures old(Valid()) ==> Valid()
      ensures old(UniqueAccounts(accounts)) ==> UniqueAccounts(accounts)
    {
      var accountIndex := FindAccount(accounts, accountId);
      if accountIndex != -1 {
        ghost var before := accounts;
        var newAccounts := accounts;
        var orders := newAccounts[accountIndex].orders;
        var orderIndex := FindOrder(orders, productId);
        if orderIndex != -1 {
          if quantityToRemove >= orders[orderIndex].quantity {
            orders := orders[..orderIndex] + orders[orderIndex + 1..];
          } else {
            var line := orders[orderIndex];
            orders := orders[orderIndex := line.(quantity := line.quantity - quantityToRemove)];
          }
          newAccounts := newAccounts[accountIndex := newAccounts[accountIndex].(orders := orders)];
          if ValidAccounts(before) {
            RemoveFromAccountPreservesValid(before, accountId, productId, quantityToRemove);
          }
          if UniqueAccounts(before) {
            RemoveFromAccountPreservesUnique(before, accountId, productId, quantityToRemove);
          }
          accounts := newAccounts;
        } else {
          assert RemoveLine(orders, productId, quantityToRemove) == orders;
          assert before[accountIndex := before[accountIndex].(orders := orders)] == before;
        }
      }
    }

    /** Drops every table with id `accountId`; the rest keep their order. */
    method HandleCloseAccount(accountId: int)
      modifies this`accounts
      ensures accounts == Tables.CloseAccount(old(accounts), accountId)
      ensures forall a :: a in accounts ==> a.id != accountId
      ensures old(Valid()) ==> Valid()
      ensures old(UniqueAccounts(accounts)) ==> UniqueAccounts(accounts)
    {
      accounts := Tables.CloseAccount(accounts, accountId);
    }

    /** Appends an empty table numbered one past the current count. */
    method HandleOpenNewTable()
      modifies this`accounts
      ensures accounts == OpenTable(old(accounts))
      ensures old(Valid()) ==> Valid()
      ensures old(UniqueAccounts(accounts)) ==> UniqueAccounts(accounts)
    {
      var newTableId := |accounts| + 1;
      accounts := accounts + [NewTable(newTableId)];
    }
  }

  /** What a caller can rely on when adding: two adds of one product merge
      into one line, and an add to an unknown table changes nothing. */
  method AddSession(productId: string)
  {
    var page := new Home();
    page.HandleOpenNewTable();
    assert page.accounts == [NewTable(1)];

    page.SelectProduct(productId);
    page.SetSelectedQuantity(2);
    assert AccountIndex(page.accounts, 1) == 0;
    assert OrderIndex([], productId) == -1;
    page.HandleAddProduct(1);
    assert page.accounts == AddToAccount([NewTable(1)], 1, productId, 2);
    assert AddLine([], productId, 2) == [Order(productId, 2)];
    assert page.accounts == [NewTable(1).(orders := [Order(productId, 2)])];
    assert page.selectedProductId == None && page.selectedProductQuantity == 1;

    page.SelectProduct(productId);
    page.SetSelectedQuantity(3);
    page.HandleAddProduct(1);
    assert page.accounts[0].orders == [Order(productId, 5)];

    page.SelectProduct(productId);
    page.HandleAddProduct(99);
    assert page.accounts[0].orders == [Order(productId, 5)];
    assert page.selectedProductId == Some(productId);
  }

  /** What a caller can rely on when removing and closing: partial and full
      removal, closing twice, and reopening on an empty page. */
  method RemoveCloseSession(productId: string)
  {
    var page := new Home();
    page.LoadAccounts([NewTable(1).(orders := [Order(productId, 5)])]);

    page.HandleRemoveProduct(1, productId, 2);
    assert page.accounts[0].orders == [Order(productId, 3)];
    page.HandleRemoveProduct(1, productId, 3);
    assert page.accounts[0].orders == [];

    page.HandleCloseAccount(1);
    assert page.accounts == [];
    page.HandleCloseAccount(1);
    assert page.accounts == [];
    page.HandleOpenNewTable();
    assert page.accounts == [NewTable(1)];
  }
}

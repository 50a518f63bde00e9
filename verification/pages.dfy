/** The two pages that open the transaction modal (src/components/pages/Transactions.tsx and
    src/components/pages/Dashboard.tsx): which transaction is being edited, whether the modal
    is open, and where a save or a delete is sent. The browser's `confirm()` answer is a
    parameter; every awaited store call is one step whose outcome the page discards. */
module Pages {
  import opened Wrappers
  import opened Domain
  import opened Api
  import opened TransactionCache

  /** `{ ...data, confidence: 1.0 }`: a manual entry becomes a fully confident proposal. The
      modal's date has no place in a proposal. */
  function ManualProposal(data: Fields): (p: Proposal)
    ensures p.confidence == 1.0
    ensures p.amount == data.amount && p.description == data.description
    ensures p.category == data.category && p.ty == data.ty
  {
    Proposal(data.amount, data.description, data.category, data.ty, 1.0)
  }

  /** A manual add never carries the date chosen in the modal: two entries that differ only in
      their date produce the same create call. This holds by construction, since a proposal
      has no date field; the lemma records the behaviour rather than proving anything deep. */
  lemma ManualAddIgnoresDate(data: Fields, date: int, now: int)
    ensures CreateCall(ManualProposal(data.(date := date)), now) == CreateCall(ManualProposal(data), now)
  {
  }

  class TransactionsPage {
    var editing: Option<Transaction>
    var modalOpen: bool
    const store: TransactionStore

    constructor (store: TransactionStore)
      ensures editing == None && !modalOpen && this.store == store
    {
      editing := None;
      modalOpen := false;
      this.store := store;
    }

    /** `handleAddTransaction`: an empty modal. */
    method HandleAdd()
      modifies this
      ensures editing == None && modalOpen
    {
      editing := None;
      modalOpen := true;
    }

    /** `handleEditTransaction`: the modal, filled with `t`. */
    method HandleEdit(t: Transaction)
      modifies this
      ensures editing == Some(t) && modalOpen
    {
      editing := Some(t);
      modalOpen := true;
    }

    /** `handleSaveTransaction`: an update of the edited row, or else an add; never both. The
        edited transaction is forgotten either way; closing is the modal's own step. */
    method HandleSave(data: Fields, now: int, response: Result<Transaction>)
      modifies this, store
      ensures old(editing).Some? ==>
        && store.calls == old(store.calls) + [UpdateCall(old(editing).value.id, data)]
        && store.transactions ==
             (if response.Ok? then ReplaceById(old(store.transactions), old(editing).value.id, response.value)
              else old(store.transactions))
      ensures old(editing).None? ==>
        && store.calls == old(store.calls) + [CreateCall(ManualProposal(data), now)]
        && store.transactions == (if response.Ok? then [response.value] else []) + old(store.transactions)
      ensures editing == None && modalOpen == old(modalOpen)
      ensures store.categories == old(store.categories) && !store.loading
    {
      if editing.Some? {
        var _ := store.UpdateTransaction(editing.value.id, data, response);
      } else {
        var _ := store.AddTransaction(ManualProposal(data), now, response);
      }
      editing := None;
    }

    /** `handleDeleteTransaction`: a delete only when the user confirms. */
    method HandleDelete(id: string, confirmed: bool, response: Result<()>)
      modifies store
      ensures !confirmed ==>
        && store.calls == old(store.calls) && store.transactions == old(store.transactions)
        && store.loading == old(store.loading)
      ensures confirmed ==>
        && store.calls == old(store.calls) + [DeleteCall(id)] && !store.loading
        && store.transactions == (if response.Ok? then RemoveById(old(store.transactions), id) else old(store.transactions))
      ensures store.categories == old(store.categories)
    {
      if confirmed {
        var _ := store.DeleteTransaction(id, response);
      }
    }

    /** The modal's `onClose`. */
    method Close()
      modifies this
      ensures !modalOpen && editing == None
    {
      modalOpen := false;
      editing := None;
    }
  }

  class DashboardPage {
    var editing: Option<Transaction>
    var modalOpen: bool
    const store: TransactionStore

    constructor (store: TransactionStore)
      ensures editing == None && !modalOpen && this.store == store
    {
      editing := None;
      modalOpen := false;
      this.store := store;
    }

    /** `handleEditTransaction`. */
    method HandleEdit(t: Transaction)
      modifies this
      ensures editing == Some(t) && modalOpen
    {
      editing := Some(t);
      modalOpen := true;
    }

    /** `handleSaveTransaction`: an update of the edited row; with nothing being edited, no
        call at all (the dashboard has no add through the modal). */
    method HandleSave(data: Fields, response: Result<Transaction>)
      modifies this, store
      ensures old(editing).Some? ==>
        && store.calls == old(store.calls) + [UpdateCall(old(editing).value.id, data)]
        && store.transactions ==
             (if response.Ok? then ReplaceById(old(store.transactions), old(editing).value.id, response.value)
              else old(store.transactions))
      ensures old(editing).None? ==>
        && store.calls == old(store.calls) && store.transactions == old(store.transactions)
        && store.loading == old(store.loading)
      ensures old(editing).Some? ==> !store.loading
      ensures editing == None && modalOpen == old(modalOpen)
      ensures store.categories == old(store.categories)
    {
      if editing.Some? {
        var _ := store.UpdateTransaction(editing.value.id, data, response);
      }
      editing := None;
    }

    /** `handleDeleteTransaction`. */
    method HandleDelete(id: string, confirmed: bool, response: Result<()>)
      modifies store
      ensures !confirmed ==>
        && store.calls == old(store.calls) && store.transactions == old(store.transactions)
        && store.loading == old(store.loading)
      ensures confirmed ==>
        && store.calls == old(store.calls) + [DeleteCall(id)] && !store.loading
        && store.transactions == (if response.Ok? then RemoveById(old(store.transactions), id) else old(store.transactions))
      ensures store.categories == old(store.categories)
    {
      if confirmed {
        var _ := store.DeleteTransaction(id, response);
      }
    }

    /** The modal's `onClose`. */
    method Close()
      modifies this
      ensures !modalOpen && editing == None
    {
      modalOpen := false;
      editing := None;
    }
  }

  /** Editing a loaded row and submitting the modal (save, then close) replaces that row with
      the server's copy in place and leaves the page with no modal and nothing being edited. */
  method EditAndSubmit(rows: seq<Transaction>, i: nat, data: Fields, now: int, updated: Transaction)
    returns (after: seq<Transaction>, open: bool, edited: Option<Transaction>)
    requires i < |rows|
    ensures |after| == |rows| && after[i] == updated
    ensures forall j :: 0 <= j < |rows| && rows[j].id != rows[i].id ==> after[j] == rows[j]
    ensures !open && edited == None
  {
    var store := new TransactionStore();
    store.LoadTransactions(None, Ok(rows));
    var page := new TransactionsPage(store);
    page.HandleEdit(rows[i]);
    page.HandleSave(data, now, Ok(updated));
    page.Close();
    forall j | 0 <= j < |rows| ensures ReplaceById(rows, rows[i].id, updated)[j] == if rows[j].id == rows[i].id then updated else rows[j] {
      ReplaceByIdAt(rows, rows[i].id, updated, j);
    }
    after, open, edited := store.transactions, page.modalOpen, page.editing;
  }

  /** Declining the confirmation leaves the list alone, on either page; each page owns its
      hook instance, loaded with the same rows. */
  method DeclinedDeleteKeepsRows(rows: seq<Transaction>, id: string)
    returns (onTransactions: seq<Transaction>, onDashboard: seq<Transaction>)
    ensures onTransactions == rows && onDashboard == rows
  {
    var transactionsStore := new TransactionStore();
    transactionsStore.LoadTransactions(None, Ok(rows));
    var page := new TransactionsPage(transactionsStore);
    page.HandleDelete(id, false, Ok(()));
    onTransactions := transactionsStore.transactions;
    var dashboardStore := new TransactionStore();
    dashboardStore.LoadTransactions(None, Ok(rows));
    var dashboard := new DashboardPage(dashboardStore);
    dashboard.HandleDelete(id, false, Ok(()));
    onDashboard := dashboardStore.transactions;
  }
}

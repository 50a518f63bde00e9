/** The dashboard's quick entry box (src/components/dashboard/QuickEntry.tsx): free text is sent
    to the parser, the proposal it returns is shown, and the user confirms (which adds it) or
    rejects it. */
module QuickEntry {
  import opened Wrappers
  import opened Text
  import opened Domain
  import opened Api
  import opened TransactionCache

  /** `disabled={!input.trim() || parsing}` on the parse button. */
  predicate ParseDisabled(input: string, parsing: bool) {
    IsBlank(input) || parsing
  }

  /** `e.key === 'Enter' && !parsing`: whether a key press starts a parse. */
  predicate EnterParses(key: string, parsing: bool) {
    key == "Enter" && !parsing
  }

  /** The button and the Enter key start a parse call under the same condition: non-blank
      input and no parse running. */
  lemma ButtonAgreesWithEnter(input: string, parsing: bool)
    ensures !ParseDisabled(input, parsing) <==> EnterParses("Enter", parsing) && !IsBlank(input)
  {
  }

  class QuickEntryBox {
    var input: string
    var parsing: bool
    var parsedData: Option<Proposal>
    const store: TransactionStore

    constructor (store: TransactionStore)
      ensures input == "" && !parsing && parsedData == None && this.store == store
    {
      input := "";
      parsing := false;
      parsedData := None;
      this.store := store;
    }

    /** The text field's `onChange`. */
    method SetInput(value: string)
      modifies this
      ensures input == value && parsing == old(parsing) && parsedData == old(parsedData)
    {
      input := value;
    }

    /** `handleParse`: nothing at all for blank input; otherwise one parse call whose proposal,
        when there is one, replaces the shown proposal. A failure keeps the previous one. */
    method HandleParse(response: Result<Proposal>)
      modifies this, store
      ensures input == old(input)
      ensures store.transactions == old(store.transactions) && store.categories == old(store.categories)
      ensures IsBlank(input) ==>
        && store.calls == old(store.calls) && store.loading == old(store.loading)
        && parsedData == old(parsedData) && parsing == old(parsing)
      ensures !IsBlank(input) ==>
        && store.calls == old(store.calls) + [ParseCall(input)] && !store.loading
        && parsedData == (if response.Ok? then Some(response.value) else old(parsedData))
        && !parsing
    {
      if IsBlank(input) {
        return;
      }
      parsing := true;
      var result := store.ParseTransaction(input, response);
      if result.Ok? {
        parsedData := Some(result.value);
      }
      parsing := false;
    }

    /** The parse button's `onClick`; a disabled button does not fire. */
    method ClickParse(response: Result<Proposal>)
      modifies this, store
      ensures input == old(input)
      ensures store.transactions == old(store.transactions) && store.categories == old(store.categories)
      ensures ParseDisabled(old(input), old(parsing)) ==>
        && store.calls == old(store.calls) && store.loading == old(store.loading)
        && parsedData == old(parsedData) && parsing == old(parsing)
      ensures !ParseDisabled(old(input), old(parsing)) ==>
        && store.calls == old(store.calls) + [ParseCall(input)] && !store.loading
        && parsedData == (if response.Ok? then Some(response.value) else old(parsedData))
        && !parsing
    {
      if !ParseDisabled(input, parsing) {
        HandleParse(response);
      }
    }

    /** A key press in the text field: Enter while no parse is running calls `handleParse`,
        which itself returns at once on blank input. */
    method KeyPress(key: string, response: Result<Proposal>)
      modifies this, store
      ensures input == old(input)
      ensures store.transactions == old(store.transactions) && store.categories == old(store.categories)
      ensures !EnterParses(key, old(parsing)) || IsBlank(input) ==>
        && store.calls == old(store.calls) && store.loading == old(store.loading)
        && parsedData == old(parsedData) && parsing == old(parsing)
      ensures EnterParses(key, old(parsing)) && !IsBlank(input) ==>
        && store.calls == old(store.calls) + [ParseCall(input)] && !store.loading
        && parsedData == (if response.Ok? then Some(response.value) else old(parsedData))
        && !parsing
    {
      if EnterParses(key, parsing) {
        HandleParse(response);
      }
    }

    /** `handleConfirm`: with a proposal, one add with exactly that proposal, then the box is
        cleared whatever the add's outcome; without one, nothing happens. */
    method HandleConfirm(now: int, response: Result<Transaction>)
      modifies this, store
      ensures parsing == old(parsing)
      ensures old(parsedData).None? ==>
        && store.calls == old(store.calls) && store.transactions == old(store.transactions)
        && store.loading == old(store.loading)
        && input == old(input) && parsedData == None
      ensures old(parsedData).Some? ==>
        && store.calls == old(store.calls) + [CreateCall(old(parsedData).value, now)]
        && store.transactions == (if response.Ok? then [response.value] else []) + old(store.transactions)
        && !store.loading
        && input == "" && parsedData == None
      ensures store.categories == old(store.categories)
    {
      if parsedData.Some? {
        var _ := store.AddTransaction(parsedData.value, now, response);
        input := "";
        parsedData := None;
      }
    }

    /** `handleReject`: drop the proposal, keep the text for another try. */
    method HandleReject()
      modifies this
      ensures parsedData == None && input == old(input) && parsing == old(parsing)
    {
      parsedData := None;
    }
  }

  /** Typing a description, parsing it and confirming the proposal leaves the box's own hook
      instance, which started empty, holding exactly the created record, and the box empty. */
  method ParseAndConfirm(text: string, proposal: Proposal, now: int, created: Transaction)
    returns (rows: seq<Transaction>, remaining: string, shown: Option<Proposal>)
    requires !IsBlank(text)
    ensures rows == [created]
    ensures remaining == "" && shown == None
  {
    var store := new TransactionStore();
    var box := new QuickEntryBox(store);
    box.SetInput(text);
    box.HandleParse(Ok(proposal));
    box.HandleConfirm(now, Ok(created));
    rows, remaining, shown := store.transactions, box.input, box.parsedData;
  }

  /** The box and the dashboard each own a hook instance, both loaded with the same rows on
      mount. A confirmed quick entry reaches only the box's instance: the dashboard's list
      keeps the loaded rows until it reloads. */
  method QuickEntryNotOnDashboard(rows: seq<Transaction>, text: string, proposal: Proposal,
                                  now: int, created: Transaction)
    returns (dashboardRows: seq<Transaction>, boxRows: seq<Transaction>)
    requires !IsBlank(text)
    ensures dashboardRows == rows
    ensures boxRows == [created] + rows
  {
    var dashboardStore := new TransactionStore();
    dashboardStore.LoadTransactions(None, Ok(rows));
    var boxStore := new TransactionStore();
    boxStore.LoadTransactions(None, Ok(rows));
    var box := new QuickEntryBox(boxStore);
    box.SetInput(text);
    box.HandleParse(Ok(proposal));
    box.HandleConfirm(now, Ok(created));
    dashboardRows, boxRows := dashboardStore.transactions, boxStore.transactions;
  }

  /** A failed parse after a successful one leaves the first proposal on screen, and rejecting
      it keeps the typed text. */
  method FailedParseKeepsProposal(text: string, proposal: Proposal, f: Failure)
    returns (afterFailure: Option<Proposal>, afterReject: Option<Proposal>, remaining: string)
    requires !IsBlank(text)
    ensures afterFailure == Some(proposal)
    ensures afterReject == None && remaining == text
  {
    var store := new TransactionStore();
    var box := new QuickEntryBox(store);
    box.SetInput(text);
    box.HandleParse(Ok(proposal));
    box.HandleParse(Err(f));
    afterFailure := box.parsedData;
    box.HandleReject();
    afterReject, remaining := box.parsedData, box.input;
  }
}

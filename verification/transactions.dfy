/** The transaction cache (src/hooks/useTransactions.ts): the client's copy of the server's
    transaction and category lists. Every mutation is confirm-then-apply: the list changes
    only once the server has answered, and a failed call leaves it as it was.
    One `TransactionStore` is one hook instance; every component calling the hook owns its own. */
module TransactionCache {
  import opened Wrappers
  import opened Seqs
  import opened Text
  import opened Domain
  import opened Storage
  import opened Api

  /** The categories offered before (or instead of) the server's list. */
  const DefaultCategories: seq<string> := [
    "Food & Dining",
    "Transportation",
    "Shopping",
    "Entertainment",
    "Bills & Utilities",
    "Healthcare",
    "Income",
    "Groceries",
    "Travel",
    "Other"
  ]

  /** `data.map(cat => cat.name)`: the names of the server's categories, in its order. */
  function CategoryNames(records: seq<CategoryRecord>): (names: seq<string>)
    ensures |names| == |records|
    ensures forall i :: 0 <= i < |records| ==> names[i] == records[i].name
  {
    seq(|records|, i requires 0 <= i < |records| => records[i].name)
  }

  // ---------------------------------------------------------------------------
  // Update: replace matching ids in place

  /** `prev.map(t => t.id === id ? record : t)`. */
  function ReplaceById(ts: seq<Transaction>, id: string, record: Transaction): (r: seq<Transaction>)
    ensures |r| == |ts|
  {
    if ts == [] then []
    else [if ts[0].id == id then record else ts[0]] + ReplaceById(ts[1..], id, record)
  }

  /** Position by position: every record with the id becomes the server's record, every
      other record stays where it was. */
  lemma {:induction false} ReplaceByIdAt(ts: seq<Transaction>, id: string, record: Transaction, k: nat)
    requires k < |ts|
    ensures ReplaceById(ts, id, record)[k] == if ts[k].id == id then record else ts[k]
  {
    if k > 0 {
      ReplaceByIdAt(ts[1..], id, record, k - 1);
    }
  }

  /** Updating an id the list does not hold changes nothing. */
  lemma ReplaceByIdAbsent(ts: seq<Transaction>, id: string, record: Transaction)
    requires forall i :: 0 <= i < |ts| ==> ts[i].id != id
    ensures ReplaceById(ts, id, record) == ts
  {
    forall k | 0 <= k < |ts| ensures ReplaceById(ts, id, record)[k] == ts[k] {
      ReplaceByIdAt(ts, id, record, k);
    }
  }

  /** Applying the same server answer twice is applying it once. */
  lemma ReplaceByIdIdempotent(ts: seq<Transaction>, id: string, record: Transaction)
    ensures ReplaceById(ReplaceById(ts, id, record), id, record) == ReplaceById(ts, id, record)
  {
    var once := ReplaceById(ts, id, record);
    forall k | 0 <= k < |ts| ensures ReplaceById(once, id, record)[k] == once[k] {
      ReplaceByIdAt(ts, id, record, k);
      ReplaceByIdAt(once, id, record, k);
    }
  }

  // ---------------------------------------------------------------------------
  // Delete: filter matching ids out

  function IdIsNot(id: string): Transaction -> bool {
    (t: Transaction) => t.id != id
  }

  /** `prev.filter(t => t.id !== id)`. */
  function RemoveById(ts: seq<Transaction>, id: string): (r: seq<Transaction>)
    ensures forall t :: t in r ==> t in ts && t.id != id
  {
    Filter(ts, IdIsNot(id))
  }

  /** What is left after a delete is exactly the records with another id, in their original
      relative order. */
  lemma RemoveByIdKeepsOthers(ts: seq<Transaction>, id: string)
    ensures IsSubsequence(RemoveById(ts, id), ts)
    ensures |RemoveById(ts, id)| == CountWhere(ts, IdIsNot(id))
    ensures forall t :: t in RemoveById(ts, id) <==> t in ts && t.id != id
  {
    FilterIsSubsequence(ts, IdIsNot(id));
    FilterLength(ts, IdIsNot(id));
    forall t ensures t in RemoveById(ts, id) <==> t in ts && t.id != id {
      FilterMembership(ts, IdIsNot(id), t);
    }
  }

  /** Deleting an id the list does not hold changes nothing. */
  lemma RemoveByIdAbsent(ts: seq<Transaction>, id: string)
    requires forall i :: 0 <= i < |ts| ==> ts[i].id != id
    ensures RemoveById(ts, id) == ts
    ensures RemoveById(RemoveById(ts, id), id) == RemoveById(ts, id)
  {
    FilterKeepsAll(ts, IdIsNot(id));
  }

  /** Deleting twice is deleting once, whether or not the list held the id: a second
      confirmed delete of the same record leaves the list as the first one left it. */
  lemma RemoveByIdIdempotent(ts: seq<Transaction>, id: string)
    ensures RemoveById(RemoveById(ts, id), id) == RemoveById(ts, id)
  {
    FilterIdempotent(ts, IdIsNot(id));
  }

  // ---------------------------------------------------------------------------
  // getFilteredTransactions

  datatype DateRange = DateRange(start: int, end: int)

  /** The hook's filter argument; an absent or empty category and an absent type do not constrain. */
  datatype LocalFilter = LocalFilter(category: Option<string>, ty: Option<TxType>, range: Option<DateRange>)

  /** The predicate `getFilteredTransactions` passes to `filter`; the date range is inclusive. */
  predicate Passes(f: LocalFilter, t: Transaction) {
    && !(IsTruthy(f.category) && t.category != f.category.value)
    && !(f.ty.Some? && t.ty != f.ty.value)
    && !(f.range.Some? && (t.date < f.range.value.start || t.date > f.range.value.end))
  }

  function Passing(f: LocalFilter): Transaction -> bool {
    (t: Transaction) => Passes(f, t)
  }

  /** `getFilteredTransactions(filters)` over the given list. */
  function LocalFiltered(ts: seq<Transaction>, f: LocalFilter): (r: seq<Transaction>)
    ensures forall t :: t in r ==> t in ts && Passes(f, t)
  {
    Filter(ts, Passing(f))
  }

  /** The local filter keeps exactly the passing records, in order, each as often as it occurs
      in the input. */
  lemma LocalFilteredSpec(ts: seq<Transaction>, f: LocalFilter)
    ensures IsSubsequence(LocalFiltered(ts, f), ts)
    ensures forall t :: t in LocalFiltered(ts, f) <==> t in ts && Passes(f, t)
    ensures |LocalFiltered(ts, f)| == CountWhere(ts, Passing(f))
  {
    FilterIsSubsequence(ts, Passing(f));
    FilterLength(ts, Passing(f));
    forall t ensures t in LocalFiltered(ts, f) <==> t in ts && Passes(f, t) {
      FilterMembership(ts, Passing(f), t);
    }
  }

  /** With no category (or an empty one), no type and no range, every record is returned. */
  lemma LocalFilteredUnconstrained(ts: seq<Transaction>, f: LocalFilter)
    requires !IsTruthy(f.category) && f.ty.None? && f.range.None?
    ensures LocalFiltered(ts, f) == ts
  {
    FilterKeepsAll(ts, Passing(f));
  }

  /** Both ends of the date range are included. */
  lemma LocalFilterRangeInclusive(f: LocalFilter, t: Transaction)
    requires f.range.Some? && (t.date == f.range.value.start || t.date == f.range.value.end)
    requires f.range.value.start <= f.range.value.end
    requires !IsTruthy(f.category) && f.ty.None?
    ensures Passes(f, t)
  {
  }

  // ---------------------------------------------------------------------------
  // The hook instance

  class TransactionStore {
    var transactions: seq<Transaction>
    var loading: bool
    var categories: seq<string>
    /** The backend calls this instance has made, oldest first. */
    ghost var calls: seq<ApiCall>

    /** A freshly mounted hook: no transactions, not loading, the default categories. */
    constructor ()
      ensures transactions == [] && !loading && categories == DefaultCategories && calls == []
    {
      transactions := [];
      loading := false;
      categories := DefaultCategories;
      calls := [];
    }

    /** `loadTransactions`: a full replace by the server's list on success; on failure the
        error is logged and the list kept. */
    method LoadTransactions(filters: Option<seq<QueryEntry>>, response: Result<seq<Transaction>>)
      modifies this
      ensures calls == old(calls) + [ListCall(filters)]
      ensures transactions == response.ValueOr(old(transactions))
      ensures !loading && categories == old(categories)
    {
      loading := true;
      calls := calls + [ListCall(filters)];
      if response.Ok? {
        transactions := response.value;
      }
      loading := false;
    }

    /** `loadCategories`: the server's names on success; on failure whatever was there before,
        which is the default list only until a load has succeeded. */
    method LoadCategories(response: Result<seq<CategoryRecord>>)
      modifies this
      ensures calls == old(calls) + [CategoriesCall]
      ensures categories == if response.Ok? then CategoryNames(response.value) else old(categories)
      ensures transactions == old(transactions) && loading == old(loading)
    {
      calls := calls + [CategoriesCall];
      if response.Ok? {
        categories := CategoryNames(response.value);
      }
    }

    /** The mount effect: both loads run only when a token is stored. */
    method InitialLoad(storage: LocalStorage, listResponse: Result<seq<Transaction>>,
                       categoriesResponse: Result<seq<CategoryRecord>>)
      modifies this
      ensures HasItem(storage.entries, AuthTokenKey) ==>
        && calls == old(calls) + [ListCall(None), CategoriesCall]
        && transactions == listResponse.ValueOr(old(transactions))
        && categories == (if categoriesResponse.Ok? then CategoryNames(categoriesResponse.value) else old(categories))
        && !loading
      ensures !HasItem(storage.entries, AuthTokenKey) ==>
        && calls == old(calls) && transactions == old(transactions)
        && categories == old(categories) && loading == old(loading)
    {
      if HasItem(storage.entries, AuthTokenKey) {
        LoadTransactions(None, listResponse);
        LoadCategories(categoriesResponse);
      }
    }

    /** `refreshTransactions`: an unfiltered reload. */
    method RefreshTransactions(response: Result<seq<Transaction>>)
      modifies this
      ensures calls == old(calls) + [ListCall(None)]
      ensures transactions == response.ValueOr(old(transactions))
      ensures !loading && categories == old(categories)
    {
      LoadTransactions(None, response);
    }

    /** `parseTransaction`: hands the server's proposal back, or re-raises; never touches the list. */
    method ParseTransaction(input: string, response: Result<Proposal>) returns (result: Result<Proposal>)
      modifies this
      ensures calls == old(calls) + [ParseCall(input)]
      ensures result == response
      ensures transactions == old(transactions) && categories == old(categories) && !loading
    {
      loading := true;
      calls := calls + [ParseCall(input)];
      result := response;
      loading := false;
    }

    /** `addTransaction`: sends the proposal stamped with the current time `now` and prepends
        the server's record; a failure leaves the list and is re-raised. */
    method AddTransaction(draft: Proposal, now: int, response: Result<Transaction>) returns (outcome: Outcome)
      modifies this
      ensures calls == old(calls) + [CreateCall(draft, now)]
      ensures transactions == if response.Ok? then [response.value] + old(transactions) else old(transactions)
      ensures outcome == Reraise(response)
      ensures !loading && categories == old(categories)
    {
      loading := true;
      calls := calls + [CreateCall(draft, now)];
      if response.Ok? {
        transactions := [response.value] + transactions;
      }
      outcome := Reraise(response);
      loading := false;
    }

    /** `updateTransaction`: every record with the id is replaced by the server's record, in place. */
    method UpdateTransaction(id: string, fields: Fields, response: Result<Transaction>) returns (outcome: Outcome)
      modifies this
      ensures calls == old(calls) + [UpdateCall(id, fields)]
      ensures transactions == if response.Ok? then ReplaceById(old(transactions), id, response.value) else old(transactions)
      ensures outcome == Reraise(response)
      ensures !loading && categories == old(categories)
    {
      loading := true;
      calls := calls + [UpdateCall(id, fields)];
      if response.Ok? {
        transactions := ReplaceById(transactions, id, response.value);
      }
      outcome := Reraise(response);
      loading := false;
    }

    /** `deleteTransaction`: once the server confirms, every record with the id is filtered out. */
    method DeleteTransaction(id: string, response: Result<()>) returns (outcome: Outcome)
      modifies this
      ensures calls == old(calls) + [DeleteCall(id)]
      ensures transactions == if response.Ok? then RemoveById(old(transactions), id) else old(transactions)
      ensures outcome == Reraise(response)
      ensures !loading && categories == old(categories)
    {
      loading := true;
      calls := calls + [DeleteCall(id)];
      if response.Ok? {
        transactions := RemoveById(transactions, id);
      }
      outcome := Reraise(response);
      loading := false;
    }
  }

  /** A successful category load followed by a failed one leaves the successful load's
      names, not the default list. */
  method CategoriesSurviveLaterFailure(first: seq<CategoryRecord>, f: Failure) returns (categories: seq<string>)
    ensures categories == CategoryNames(first)
  {
    var store := new TransactionStore();
    store.LoadCategories(Ok(first));
    store.LoadCategories(Err(f));
    categories := store.categories;
  }
}

/** The transaction list's client-side filter (src/components/transactions/TransactionList.tsx):
    category and type select boxes, a case-insensitive description search, the options the
    select boxes offer, the empty state and the sign shown before each amount. */
module TransactionList {
  import opened Seqs
  import opened Text
  import opened Domain

  /** The filter record; an empty field means "any". `ty` is the select's raw value. */
  datatype ListFilter = ListFilter(category: string, ty: string, search: string)

  const NoFilter := ListFilter("", "", "")

  /** Whether a row survives the filter: each non-empty field must match. */
  predicate Shown(f: ListFilter, t: Transaction) {
    && (f.category == "" || t.category == f.category)
    && (f.ty == "" || TypeName(t.ty) == f.ty)
    && (f.search == "" || Contains(Lower(t.description), Lower(f.search)))
  }

  function ShownBy(f: ListFilter): Transaction -> bool {
    (t: Transaction) => Shown(f, t)
  }

  /** `filteredTransactions`. */
  function FilteredRows(f: ListFilter, ts: seq<Transaction>): (r: seq<Transaction>)
    ensures |r| <= |ts|
    ensures forall t :: t in r ==> t in ts && Shown(f, t)
  {
    Filter(ts, ShownBy(f))
  }

  /** The shown rows are the input rows that pass, in their original order, each as often as
      it occurs in the input. */
  lemma FilteredRowsSpec(f: ListFilter, ts: seq<Transaction>)
    ensures IsSubsequence(FilteredRows(f, ts), ts)
    ensures forall t :: t in FilteredRows(f, ts) <==> t in ts && Shown(f, t)
    ensures |FilteredRows(f, ts)| == CountWhere(ts, ShownBy(f))
  {
    FilterIsSubsequence(ts, ShownBy(f));
    FilterLength(ts, ShownBy(f));
    forall t ensures t in FilteredRows(f, ts) <==> t in ts && Shown(f, t) {
      FilterMembership(ts, ShownBy(f), t);
    }
  }

  /** The initial, empty filter shows every row. */
  lemma NoFilterShowsAll(ts: seq<Transaction>)
    ensures FilteredRows(NoFilter, ts) == ts
  {
    FilterKeepsAll(ts, ShownBy(NoFilter));
  }

  /** A category or type choice keeps exact matches only; a type value that names neither
      type hides every row. */
  lemma SelectionsMatchExactly(f: ListFilter, ts: seq<Transaction>)
    ensures f.category != "" ==> forall t :: t in FilteredRows(f, ts) ==> t.category == f.category
    ensures f.ty != "" ==> forall t :: t in FilteredRows(f, ts) ==> TypeName(t.ty) == f.ty
    ensures f.ty != "" && f.ty != "income" && f.ty != "expense" ==> FilteredRows(f, ts) == []
  {
    if f.ty != "" && f.ty != "income" && f.ty != "expense" {
      forall i | 0 <= i < |ts| ensures !ShownBy(f)(ts[i]) {
        assert TypeName(ts[i].ty) != f.ty;
      }
      FilterEmpty(ts, ShownBy(f));
    }
  }

  /** The search ignores case: lowering the search text first shows the same rows. */
  lemma SearchIgnoresCase(f: ListFilter, ts: seq<Transaction>)
    ensures FilteredRows(f.(search := Lower(f.search)), ts) == FilteredRows(f, ts)
  {
    LowerIdempotent(f.search);
    var g := f.(search := Lower(f.search));
    assert f.search == "" <==> g.search == "";
    assert forall t :: Shown(g, t) == Shown(f, t);
    FilterCongruent(ts, ShownBy(g), ShownBy(f));
  }

  /** Two searches that differ only in the case of their letters show the same rows: typing
      "COFFEE" or "coffee" makes no difference. */
  lemma SearchUpToCaseSameRows(f: ListFilter, g: ListFilter, ts: seq<Transaction>)
    requires f.category == g.category && f.ty == g.ty
    requires EqualUpToCase(f.search, g.search)
    ensures FilteredRows(f, ts) == FilteredRows(g, ts)
  {
    LowerEqualIff(f.search, g.search);
    assert f.search == "" <==> g.search == "";
    assert forall t :: Shown(f, t) == Shown(g, t);
    FilterCongruent(ts, ShownBy(f), ShownBy(g));
  }

  /** "No transactions found" appears exactly when no input row passes the filter. */
  lemma EmptyStateIff(f: ListFilter, ts: seq<Transaction>)
    ensures |FilteredRows(f, ts)| == 0 <==> forall i :: 0 <= i < |ts| ==> !Shown(f, ts[i])
  {
    FilterEmpty(ts, ShownBy(f));
  }

  datatype SelectOption = SelectOption(value: string, caption: string)

  /** `categoryOptions`: "All Categories" first, then one option per category in order. */
  function CategoryOptions(categories: seq<string>): (r: seq<SelectOption>)
    ensures |r| == |categories| + 1
    ensures r[0] == SelectOption("", "All Categories")
    ensures forall i :: 0 <= i < |categories| ==> r[i + 1] == SelectOption(categories[i], categories[i])
  {
    [SelectOption("", "All Categories")] + seq(|categories|, i requires 0 <= i < |categories| => SelectOption(categories[i], categories[i]))
  }

  const TypeOptions: seq<SelectOption> :=
    [SelectOption("", "All Types"), SelectOption("income", "Income"), SelectOption("expense", "Expense")]

  /** Every transaction type can be chosen in the type select box, and choosing it keeps
      exactly the rows of that type. */
  lemma TypeOptionsCoverTypes(ty: TxType, t: Transaction)
    ensures exists o :: o in TypeOptions && o.value == TypeName(ty)
    ensures Shown(ListFilter("", TypeName(ty), ""), t) <==> t.ty == ty
  {
    if ty == Income {
      assert TypeOptions[1] in TypeOptions;
    } else {
      assert TypeOptions[2] in TypeOptions;
    }
  }

  /** The sign before a row's amount. */
  function SignPrefix(t: Transaction): (s: string)
    ensures s == "+" <==> t.ty == Income
    ensures s == "-" <==> t.ty == Expense
  {
    if TypeName(t.ty) == "income" then "+" else "-"
  }
}

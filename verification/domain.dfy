/** The records the client exchanges with the backend (src/types/index.ts).
    Amounts are integer cents and dates opaque ordered integers: the client only
    compares, carries and displays them. */
module Domain {
  import opened Wrappers

  datatype TxType = Income | Expense

  /** The wire spelling of a transaction type, as compared against a select's value. */
  function TypeName(t: TxType): (s: string)
    ensures s == "income" <==> t == Income
    ensures s == "expense" <==> t == Expense
  {
    match t
    case Income => "income"
    case Expense => "expense"
  }

  /** A transaction as the server returns it (userId and the creation/update stamps are not modelled). */
  datatype Transaction = Transaction(
    id: string,
    amount: int,
    description: string,
    category: string,
    ty: TxType,
    date: int)

  /** A parser proposal (`ParsedTransaction`): not persisted until confirmed. */
  datatype Proposal = Proposal(
    amount: int,
    description: string,
    category: string,
    ty: TxType,
    confidence: real)

  /** The editable fields the transaction modal hands to `onSave`. */
  datatype Fields = Fields(
    amount: int,
    description: string,
    category: string,
    ty: TxType,
    date: int)

  datatype User = User(id: string, email: string, name: string, picture: Option<string>)

  /** The body of a successful login or registration. */
  datatype AuthResponse = AuthResponse(user: User, token: string)

  /** An entry of the backend's category list; only its name is used. */
  datatype CategoryRecord = CategoryRecord(name: string)

  datatype Period = Month | Quarter | Year

  function PeriodName(p: Period): string {
    match p
    case Month => "month"
    case Quarter => "quarter"
    case Year => "year"
  }

  datatype Summary = Summary(totalIncome: int, totalExpenses: int, savings: int, monthlyChange: int)

  datatype CategoryDatum = CategoryDatum(category: string, amount: int, percentage: int, color: string)

  datatype TrendPoint = TrendPoint(date: string, income: int, expenses: int, net: int)
}

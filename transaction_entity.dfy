/** The `Transaction` entity: an income or an expense booked by one user
    against one of their accounts, optionally under a category. */
module TransactionEntity {
  import opened Common

  /** The values of the `type` enum column. */
  datatype TxType = Income | Expense

  function TxTypeLabel(t: TxType): string {
    match t
    case Income => "income"
    case Expense => "expense"
  }

  /** How the database reads a string written to the enum column. */
  function ParseTxType(s: string): (r: Option<TxType>)
    ensures r.Some? ==> TxTypeLabel(r.value) == s
    ensures r.None? <==> forall t :: TxTypeLabel(t) != s
  {
    if s == "income" then Some(Income)
    else if s == "expense" then Some(Expense)
    else None
  }

  /** Every enum value survives a write and a read of its label. */
  lemma TxTypeRoundTrip(t: TxType)
    ensures ParseTxType(TxTypeLabel(t)) == Some(t)
  {
  }

  /** `account` is set when the row is created and never changed;
      `category` is nullable; `description` is a nullable text column. */
  datatype TransactionData = TransactionData(
    account: Id,
    category: Option<Id>,
    amount: Cents,
    kind: TxType,
    description: Option<string>,
    date: Date)

  /** Every transaction belongs to exactly one user. */
  type Transaction = Owned<TransactionData>

  /** The column constraint: `amount` is decimal(10,2). */
  predicate TransactionFits(d: TransactionData) {
    FitsDecimal(d.amount)
  }

  /** The optional fields of a transaction update: the account and the
      category are not among them. `description` is `Some(d)` when the update
      writes `d` to the nullable column, `Some(None)` clearing it. */
  datatype TransactionPatch = TransactionPatch(amount: Option<Cents>, kind: Option<TxType>,
                                               description: Option<Option<string>>, date: Option<Date>)

  /** A field-wise merge of the supplied fields; the links are kept. */
  function MergeTransaction(d: TransactionData, p: TransactionPatch): (r: TransactionData)
    ensures r.account == d.account && r.category == d.category
    ensures p == TransactionPatch(None, None, None, None) ==> r == d
    ensures r.amount == (if p.amount.Some? then p.amount.value else d.amount)
    ensures r.kind == (if p.kind.Some? then p.kind.value else d.kind)
    ensures r.description == (if p.description.Some? then p.description.value else d.description)
    ensures r.date == (if p.date.Some? then p.date.value else d.date)
  {
    TransactionData(
      d.account,
      d.category,
      if p.amount.Some? then p.amount.value else d.amount,
      if p.kind.Some? then p.kind.value else d.kind,
      if p.description.Some? then p.description.value else d.description,
      if p.date.Some? then p.date.value else d.date)
  }

  /** The ON DELETE CASCADE of the `account` foreign key: deleting an account
      deletes exactly the transactions that reference it. */
  function WithoutAccount(transactions: map<Id, Transaction>, account: Id): (r: map<Id, Transaction>)
    ensures forall k :: k in r <==> k in transactions && transactions[k].row.account != account
    ensures forall k :: k in r ==> r[k] == transactions[k]
  {
    map k | k in transactions && transactions[k].row.account != account :: transactions[k]
  }
}

/** The `Account` entity: a named wallet of one user. */
module AccountEntity {
  import opened Common

  /** The values of the `type` enum column. */
  datatype AccountType = Bank | MobileMoney | Cash

  /** The label the enum column stores for each value. */
  function TypeLabel(t: AccountType): string {
    match t
    case Bank => "Bank"
    case MobileMoney => "Mobile Money"
    case Cash => "Cash"
  }

  /** How the database reads a string written to the enum column: one of the
      three labels, or nothing (the write is refused). */
  function ParseAccountType(s: string): (r: Option<AccountType>)
    ensures r.Some? ==> TypeLabel(r.value) == s
    ensures r.None? <==> forall t :: TypeLabel(t) != s
  {
    if s == "Bank" then Some(Bank)
    else if s == "Mobile Money" then Some(MobileMoney)
    else if s == "Cash" then Some(Cash)
    else None
  }

  /** Every enum value survives a write and a read of its label. */
  lemma AccountTypeRoundTrip(t: AccountType)
    ensures ParseAccountType(TypeLabel(t)) == Some(t)
  {
  }

  datatype AccountData = AccountData(name: string, kind: AccountType, balance: Cents, currency: string)

  /** Every account belongs to exactly one user. */
  type Account = Owned<AccountData>

  /** The column defaults. The create path always writes all three columns. */
  const DefaultAccountType: AccountType := Cash
  const DefaultBalance: Cents := 0
  const DefaultCurrency: string := "RWF"

  /** The column constraints: `name` is varchar(255), `balance` decimal(10,2),
      `currency` varchar(3). */
  predicate AccountFits(d: AccountData) {
    |d.name| <= 255 && FitsDecimal(d.balance) && |d.currency| <= 3
  }

  /** The optional fields of an account update. */
  datatype AccountPatch = AccountPatch(name: Option<string>, balance: Option<Cents>,
                                       kind: Option<AccountType>, currency: Option<string>)

  /** A field-wise merge: every supplied field replaces the stored one, every
      absent field keeps its value. */
  function MergeAccount(d: AccountData, p: AccountPatch): (r: AccountData)
    ensures p == AccountPatch(None, None, None, None) ==> r == d
    ensures r.name == (if p.name.Some? then p.name.value else d.name)
    ensures r.balance == (if p.balance.Some? then p.balance.value else d.balance)
    ensures r.kind == (if p.kind.Some? then p.kind.value else d.kind)
    ensures r.currency == (if p.currency.Some? then p.currency.value else d.currency)
  {
    AccountData(
      if p.name.Some? then p.name.value else d.name,
      if p.kind.Some? then p.kind.value else d.kind,
      if p.balance.Some? then p.balance.value else d.balance,
      if p.currency.Some? then p.currency.value else d.currency)
  }

  /** Applying the same update twice is the same as applying it once. */
  lemma MergeIdempotent(d: AccountData, p: AccountPatch)
    ensures MergeAccount(MergeAccount(d, p), p) == MergeAccount(d, p)
  {
  }

  /** Whether `user` already has an account called `name`. */
  predicate HasAccountNamed(accounts: map<Id, Account>, user: Id, name: string) {
    exists k :: k in accounts && accounts[k].owner == user && accounts[k].row.name == name
  }
}

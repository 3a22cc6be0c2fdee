/** The figures of the transaction report: which rows it selects and the
    income, expense and balance totals over them. Amounts are exact integers
    of hundredths, so every total is exact. The selected rows are named by
    their ids, in the order the store returns them. */
module Report {
  import opened Common
  import opened TransactionEntity

  /** The report's selection: the user's transactions dated no earlier than
      `startDate` and no later than `endDate`, each bound applying only when
      supplied. */
  predicate InReport(t: Transaction, userId: Id, startDate: Option<Date>, endDate: Option<Date>) {
    && t.owner == userId
    && (startDate.Some? ==> startDate.value <= t.row.date)
    && (endDate.Some? ==> t.row.date <= endDate.value)
  }

  datatype Totals = Totals(totalIncome: int, totalExpenses: int, balance: int)

  /** What the row with id `k` adds to the total of one type; an id with no
      row adds nothing. */
  function Share(transactions: map<Id, Transaction>, k: Id, kind: TxType): int {
    if k in transactions && transactions[k].row.kind == kind then transactions[k].row.amount else 0
  }

  /** The sum of the amounts of the rows of one type among `ids`. */
  function SumOf(transactions: map<Id, Transaction>, ids: seq<Id>, kind: TxType): int {
    if ids == [] then 0 else SumOf(transactions, ids[..|ids| - 1], kind) + Share(transactions, ids[|ids| - 1], kind)
  }

  /** The three summary figures of the rows `ids`. */
  function Summarize(transactions: map<Id, Transaction>, ids: seq<Id>): (r: Totals)
    ensures r.totalIncome == SumOf(transactions, ids, Income)
    ensures r.totalExpenses == SumOf(transactions, ids, Expense)
    ensures r.balance == r.totalIncome - r.totalExpenses
    ensures ids == [] ==> r == Totals(0, 0, 0)
  {
    var income := SumOf(transactions, ids, Income);
    var expenses := SumOf(transactions, ids, Expense);
    Totals(income, expenses, income - expenses)
  }

  /** What a row adds to the user's net position: income up, expense down. */
  function Signed(transactions: map<Id, Transaction>, k: Id): int {
    if k !in transactions then 0
    else match transactions[k].row.kind
      case Income => transactions[k].row.amount
      case Expense => -transactions[k].row.amount
  }

  /** The net position of the rows `ids`, summed from the front. */
  function NetFlow(transactions: map<Id, Transaction>, ids: seq<Id>): int {
    if ids == [] then 0 else Signed(transactions, ids[0]) + NetFlow(transactions, ids[1..])
  }

  lemma {:induction false} SumOfAppend(transactions: map<Id, Transaction>, a: seq<Id>, b: seq<Id>, kind: TxType)
    ensures SumOf(transactions, a + b, kind) == SumOf(transactions, a, kind) + SumOf(transactions, b, kind)
    decreases |b|
  {
    if b == [] {
      assert a + b == a;
    } else {
      var n := |b| - 1;
      assert (a + b)[..|a + b| - 1] == a + b[..n];
      SumOfAppend(transactions, a, b[..n], kind);
    }
  }

  /** The balance figure is the net position of the selected rows. */
  lemma {:induction false} BalanceIsNetFlow(transactions: map<Id, Transaction>, ids: seq<Id>)
    ensures Summarize(transactions, ids).balance == NetFlow(transactions, ids)
    decreases |ids|
  {
    if ids != [] {
      assert ids == [ids[0]] + ids[1..];
      SumOfAppend(transactions, [ids[0]], ids[1..], Income);
      SumOfAppend(transactions, [ids[0]], ids[1..], Expense);
      assert [ids[0]][..0] == [];
      BalanceIsNetFlow(transactions, ids[1..]);
    }
  }

  /** Appending an id adds its row's share to the sum. */
  lemma SumOfSnoc(transactions: map<Id, Transaction>, ids: seq<Id>, k: Id, kind: TxType)
    ensures SumOf(transactions, ids + [k], kind) == SumOf(transactions, ids, kind) + Share(transactions, k, kind)
  {
  }

  /** Taking out the element at `j` takes one copy of it out of the multiset. */
  lemma WithoutOne<T>(s: seq<T>, j: nat)
    requires j < |s|
    ensures multiset(s[..j] + s[j + 1..]) == multiset(s) - multiset{s[j]}
  {
    assert s == s[..j] + [s[j]] + s[j + 1..];
    assert multiset(s) == multiset(s[..j]) + multiset{s[j]} + multiset(s[j + 1..]);
  }

  /** The last element comes out of the multiset when it is dropped. */
  lemma DropLast<T>(s: seq<T>)
    requires s != []
    ensures multiset(s[..|s| - 1]) == multiset(s) - multiset{s[|s| - 1]}
  {
    assert s == s[..|s| - 1] + [s[|s| - 1]];
  }

  /** A position at which `x` occurs in `s`. */
  function IndexOf<T(==)>(s: seq<T>, x: T): (j: nat)
    requires x in multiset(s)
    ensures j < |s| && s[j] == x
  {
    if s[0] == x then 0 else IndexOf(s[1..], x) + 1
  }

  /** Taking the id at `j` out of the list takes its row's share out of the sum. */
  lemma SumOfWithout(transactions: map<Id, Transaction>, ids: seq<Id>, j: nat, kind: TxType)
    requires j < |ids|
    ensures SumOf(transactions, ids, kind)
         == SumOf(transactions, ids[..j] + ids[j + 1..], kind) + Share(transactions, ids[j], kind)
  {
    var x := ids[j];
    assert ids == ids[..j] + ([x] + ids[j + 1..]);
    SumOfAppend(transactions, ids[..j], [x] + ids[j + 1..], kind);
    SumOfAppend(transactions, [x], ids[j + 1..], kind);
    SumOfAppend(transactions, ids[..j], ids[j + 1..], kind);
    assert [x][..0] == [];
  }

  /** Summing is insensitive to the order of the ids. */
  lemma {:induction false} SumOfPermutation(transactions: map<Id, Transaction>, a: seq<Id>, b: seq<Id>, kind: TxType)
    requires multiset(a) == multiset(b)
    ensures SumOf(transactions, a, kind) == SumOf(transactions, b, kind)
    decreases |a|
  {
    if a != [] {
      var n := |a| - 1;
      var j := IndexOf(b, a[n]);
      DropLast(a);
      WithoutOne(b, j);
      SumOfPermutation(transactions, a[..n], b[..j] + b[j + 1..], kind);
      SumOfWithout(transactions, b, j, kind);
    }
  }

  /** No id occurs twice. */
  predicate Distinct(ids: seq<Id>) {
    forall i, j :: 0 <= i < j < |ids| ==> ids[i] != ids[j]
  }

  /** In a list without repetitions every element occurs once. */
  lemma {:induction false} DistinctCounts(ids: seq<Id>)
    requires Distinct(ids)
    ensures forall x :: multiset(ids)[x] == if x in ids then 1 else 0
    decreases |ids|
  {
    if ids != [] {
      var n := |ids| - 1;
      assert ids == ids[..n] + [ids[n]];
      DistinctCounts(ids[..n]);
      assert ids[n] !in ids[..n];
    }
  }

  /** The totals depend only on which rows are selected, not on the order in
      which the store returns them. */
  lemma TotalsIgnoreOrder(transactions: map<Id, Transaction>, a: seq<Id>, b: seq<Id>)
    requires Distinct(a) && Distinct(b)
    requires forall k :: k in a <==> k in b
    ensures Summarize(transactions, a) == Summarize(transactions, b)
  {
    DistinctCounts(a);
    DistinctCounts(b);
    assert multiset(a) == multiset(b);
    SumOfPermutation(transactions, a, b, Income);
    SumOfPermutation(transactions, a, b, Expense);
  }
}

/** TransactionsService: a user's incomes and expenses, with ownership
    checks, field-wise update, and the figures of the transaction report. */
module Transactions {
  import opened Common
  import opened TransactionEntity
  import opened Store
  import opened Report

  /** The creation request; `kind` is the raw string written to the enum column. */
  datatype TransactionDto = TransactionDto(amount: Cents, kind: string, description: string, date: Date)

  /** The update request: every field may be left out or sent as `null`. */
  datatype UpdateTransactionDto = UpdateTransactionDto(amount: Field<Cents>, kind: Field<string>,
                                                       description: Field<string>, date: Field<Date>)

  /** The row a creation request produces, or nothing when its type string is
      not one of the enum labels. The description is always supplied. */
  function RowOf(dto: TransactionDto, accountId: Id, categoryId: Id): (r: Option<TransactionData>)
    ensures r.None? <==> ParseTxType(dto.kind).None?
    ensures r.Some? ==>
              && r.value.account == accountId && r.value.category == Some(categoryId)
              && r.value.amount == dto.amount && TxTypeLabel(r.value.kind) == dto.kind
              && r.value.description == Some(dto.description) && r.value.date == dto.date
  {
    match ParseTxType(dto.kind)
    case None => None
    case Some(kind) => Some(TransactionData(accountId, Some(categoryId), dto.amount, kind, Some(dto.description), dto.date))
  }

  /** The update as the database sees it. The merge skips a left-out field
      and copies a `null` one: a `null` description clears the nullable
      column, while a `null` amount, type or date, or a type string that is
      not one of the labels, is a write the database refuses (nothing). */
  function PatchOf(dto: UpdateTransactionDto): (p: Option<TransactionPatch>)
    ensures p.None? <==> dto.amount.Null? || dto.kind.Null? || dto.date.Null?
                         || (dto.kind.Given? && ParseTxType(dto.kind.value).None?)
    ensures p.Some? ==> (p.value.amount.Some? <==> dto.amount.Given?)
                        && (dto.amount.Given? ==> p.value.amount.value == dto.amount.value)
    ensures p.Some? ==> (p.value.kind.Some? <==> dto.kind.Given?)
                        && (dto.kind.Given? ==> TxTypeLabel(p.value.kind.value) == dto.kind.value)
    ensures p.Some? ==> (p.value.date.Some? <==> dto.date.Given?)
                        && (dto.date.Given? ==> p.value.date.value == dto.date.value)
    ensures p.Some? ==> (p.value.description.Some? <==> !dto.description.Absent?)
    ensures p.Some? && dto.description.Null? ==> p.value.description.value == None
    ensures p.Some? && dto.description.Given? ==> p.value.description.value == Some(dto.description.value)
  {
    if dto.amount.Null? || dto.kind.Null? || dto.date.Null? then None
    else
      var kind := if dto.kind.Given? then ParseTxType(dto.kind.value) else None;
      if dto.kind.Given? && kind.None? then None
      else
        var description := match dto.description
          case Absent => None
          case Null => Some(None)
          case Given(d) => Some(Some(d));
        Some(TransactionPatch(GivenValue(dto.amount), kind, description, GivenValue(dto.date)))
  }

  class TransactionsService {
    const db: Database

    constructor (db: Database)
      ensures this.db == db
    {
      this.db := db;
    }

    /** Books a transaction against one of the user's accounts. Fails NotFound
        for an unknown user, NotFound for an unknown account, Forbidden when
        another user owns the account, and NotFound for an unknown category;
        the category's owner is never compared. No account balance changes. */
    method CreateTransaction(dto: TransactionDto, userId: Id, accountId: Id, categoryId: Id)
      returns (r: Result<Saved<TransactionData>>)
      requires db.Valid()
      modifies db
      ensures db.Valid()
      ensures userId !in old(db.users) ==> r == Err(NotFound)
      ensures userId in old(db.users) && accountId !in old(db.accounts) ==> r == Err(NotFound)
      ensures userId in old(db.users) && accountId in old(db.accounts) && old(db.accounts)[accountId].owner != userId
              ==> r == Err(Forbidden)
      ensures userId in old(db.users) && accountId in old(db.accounts) && old(db.accounts)[accountId].owner == userId
              && categoryId !in old(db.categories)
              ==> r == Err(NotFound)
      ensures userId in old(db.users) && accountId in old(db.accounts) && old(db.accounts)[accountId].owner == userId
              && categoryId in old(db.categories)
              && (RowOf(dto, accountId, categoryId).None? || !TransactionFits(RowOf(dto, accountId, categoryId).value))
              ==> r == Err(Rejected)
      ensures r.Ok? <==> userId in old(db.users) && accountId in old(db.accounts)
                         && old(db.accounts)[accountId].owner == userId && categoryId in old(db.categories)
                         && RowOf(dto, accountId, categoryId).Some? && TransactionFits(RowOf(dto, accountId, categoryId).value)
      ensures r.Err? ==> unchanged(db)
      ensures r.Ok? ==>
                && RowOf(dto, accountId, categoryId).Some?
                && r.value.row == RowOf(dto, accountId, categoryId).value
                && r.value.id !in old(db.transactions)
                && db.transactions == old(db.transactions)[r.value.id := Owned(userId, r.value.row)]
      ensures db.users == old(db.users) && db.accounts == old(db.accounts) && db.categories == old(db.categories)
    {
      if userId !in db.users {
        return Err(NotFound);
      }
      if accountId !in db.accounts {
        return Err(NotFound);
      }
      if db.accounts[accountId].owner != userId {
        return Err(Forbidden);
      }
      if categoryId !in db.categories {
        return Err(NotFound);
      }
      var row := RowOf(dto, accountId, categoryId);
      if row.None? || !TransactionFits(row.value) {
        return Err(Rejected);
      }
      var id := db.FreshId();
      db.transactions := db.transactions[id := Owned(userId, row.value)];
      assert TransactionsOk(db.transactions, db.users, db.accounts, db.categories);
      r := Ok(Saved(id, row.value));
    }

    /** Exactly the transactions the user owns. */
    function FindAll(userId: Id): (r: map<Id, Transaction>)
      reads db
      ensures forall k :: k in r <==> k in db.transactions && db.transactions[k].owner == userId
      ensures forall k :: k in r ==> r[k] == db.transactions[k]
    {
      map k | k in db.transactions && db.transactions[k].owner == userId :: db.transactions[k]
    }

    /** The transaction, if it exists and the user owns it; otherwise NotFound,
        the same failure for a missing transaction and for someone else's. */
    function FindOne(userId: Id, id: Id): (r: Result<Transaction>)
      reads db
      ensures r.Ok? <==> id in db.transactions && db.transactions[id].owner == userId
      ensures r.Ok? ==> r.value == db.transactions[id]
      ensures r.Err? ==> r.error == NotFound
    {
      if id in db.transactions && db.transactions[id].owner == userId then Ok(db.transactions[id]) else Err(NotFound)
    }

    /** Merges the supplied fields into the transaction: NotFound if it does
        not exist, then Forbidden if another user owns it. Its owner, account
        and category stay; nothing else in the store changes. */
    method UpdateTransaction(userId: Id, id: Id, dto: UpdateTransactionDto) returns (r: Result<Saved<TransactionData>>)
      requires db.Valid()
      modifies db
      ensures db.Valid()
      ensures id !in old(db.transactions) ==> r == Err(NotFound)
      ensures id in old(db.transactions) && old(db.transactions)[id].owner != userId ==> r == Err(Forbidden)
      ensures id in old(db.transactions) && old(db.transactions)[id].owner == userId
              && (PatchOf(dto).None? || !TransactionFits(MergeTransaction(old(db.transactions)[id].row, PatchOf(dto).value)))
              ==> r == Err(Rejected)
      ensures r.Ok? <==> id in old(db.transactions) && old(db.transactions)[id].owner == userId && PatchOf(dto).Some?
                         && TransactionFits(MergeTransaction(old(db.transactions)[id].row, PatchOf(dto).value))
      ensures r.Err? ==> unchanged(db)
      ensures r.Ok? ==>
                && id in old(db.transactions) && old(db.transactions)[id].owner == userId && PatchOf(dto).Some?
                && r.value == Saved(id, MergeTransaction(old(db.transactions)[id].row, PatchOf(dto).value))
                && db.transactions == old(db.transactions)[id := Owned(userId, r.value.row)]
      ensures db.users == old(db.users) && db.accounts == old(db.accounts) && db.categories == old(db.categories)
      ensures db.nextId == old(db.nextId)
    {
      if id !in db.transactions {
        return Err(NotFound);
      }
      var transaction := db.transactions[id];
      if transaction.owner != userId {
        return Err(Forbidden);
      }
      var patch := PatchOf(dto);
      if patch.None? {
        return Err(Rejected);
      }
      var row := MergeTransaction(transaction.row, patch.value);
      if !TransactionFits(row) {
        return Err(Rejected);
      }
      db.transactions := db.transactions[id := Owned(userId, row)];
      assert TransactionsOk(db.transactions, db.users, db.accounts, db.categories);
      r := Ok(Saved(id, row));
    }

    /** Deletes the transaction: NotFound if it does not exist, then Forbidden
        if another user owns it. No account balance changes. */
    method DeleteTransaction(userId: Id, id: Id) returns (r: Result<()>)
      requires db.Valid()
      modifies db
      ensures db.Valid()
      ensures id !in old(db.transactions) ==> r == Err(NotFound)
      ensures id in old(db.transactions) && old(db.transactions)[id].owner != userId ==> r == Err(Forbidden)
      ensures r.Ok? <==> id in old(db.transactions) && old(db.transactions)[id].owner == userId
      ensures r.Err? ==> unchanged(db)
      ensures r.Ok? ==> db.transactions == old(db.transactions) - {id}
      ensures db.users == old(db.users) && db.accounts == old(db.accounts) && db.categories == old(db.categories)
      ensures db.nextId == old(db.nextId)
    {
      if id !in db.transactions {
        return Err(NotFound);
      }
      if db.transactions[id].owner != userId {
        return Err(Forbidden);
      }
      db.transactions := db.transactions - {id};
      r := Ok(());
    }

    /** The figures of the report: the selected rows, in whatever order the
        store returns them, and their totals. The totals do not depend on the
        order: any other enumeration of the same rows gives the same figures. */
    method GenerateReport(userId: Id, startDate: Option<Date>, endDate: Option<Date>)
      returns (ids: seq<Id>, totals: Totals)
      ensures Distinct(ids)
      ensures forall k :: k in ids <==> k in db.transactions && InReport(db.transactions[k], userId, startDate, endDate)
      ensures totals == Summarize(db.transactions, ids)
      ensures totals.balance == NetFlow(db.transactions, ids)
      ensures forall other: seq<Id> :: Distinct(other) && (forall k :: k in other <==> k in ids)
                ==> Summarize(db.transactions, other) == totals
    {
      var transactions := db.transactions;
      var pending := set k | k in transactions && InReport(transactions[k], userId, startDate, endDate);
      ids := [];
      var totalIncome, totalExpenses := 0, 0;
      while pending != {}
        invariant Distinct(ids)
        invariant forall k :: k in ids ==> k in transactions && k !in pending
        invariant forall k :: k in ids || k in pending <==> k in transactions && InReport(transactions[k], userId, startDate, endDate)
        invariant totalIncome == SumOf(transactions, ids, Income)
        invariant totalExpenses == SumOf(transactions, ids, Expense)
        decreases |pending|
      {
        var k :| k in pending;
        var t := transactions[k];
        if t.row.kind == Income {
          totalIncome := totalIncome + t.row.amount;
        } else if t.row.kind == Expense {
          totalExpenses := totalExpenses + t.row.amount;
        }
        SumOfSnoc(transactions, ids, k, Income);
        SumOfSnoc(transactions, ids, k, Expense);
        ids := ids + [k];
        pending := pending - {k};
      }
      totals := Totals(totalIncome, totalExpenses, totalIncome - totalExpenses);
      BalanceIsNetFlow(transactions, ids);
      forall other: seq<Id> | Distinct(other) && (forall k :: k in other <==> k in ids)
        ensures Summarize(transactions, other) == totals
      {
        TotalsIgnoreOrder(transactions, ids, other);
      }
    }
  }
}

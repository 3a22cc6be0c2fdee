/** AccountsService: a user's accounts, with per-user unique names on
    creation, ownership checks, field-wise update and cascading removal. */
module Accounts {
  import opened Common
  import opened AccountEntity
  import opened TransactionEntity
  import opened Store

  /** The creation request; `kind` is the raw string written to the enum column. */
  datatype AccountDto = AccountDto(name: string, balance: Cents, kind: string, currency: string)

  /** The update request: every field may be left out or sent as `null`. */
  datatype UpdateAccountDto = UpdateAccountDto(name: Field<string>, balance: Field<Cents>,
                                               kind: Field<string>, currency: Field<string>)

  /** The update as the database sees it. The merge skips a left-out field
      and copies a `null` one; every account column is NOT NULL, so a `null`
      field, like a type string that is not one of the labels, is a write the
      database refuses (nothing). */
  function PatchOf(dto: UpdateAccountDto): (p: Option<AccountPatch>)
    ensures p.None? <==> dto.name.Null? || dto.balance.Null? || dto.kind.Null? || dto.currency.Null?
                         || (dto.kind.Given? && ParseAccountType(dto.kind.value).None?)
    ensures p.Some? ==> p.value.name == GivenValue(dto.name) && p.value.balance == GivenValue(dto.balance)
                        && p.value.currency == GivenValue(dto.currency)
    ensures p.Some? ==> (p.value.kind.Some? <==> dto.kind.Given?)
                        && (dto.kind.Given? ==> TypeLabel(p.value.kind.value) == dto.kind.value)
  {
    if dto.name.Null? || dto.balance.Null? || dto.kind.Null? || dto.currency.Null? then None
    else
      var kind := if dto.kind.Given? then ParseAccountType(dto.kind.value) else None;
      if dto.kind.Given? && kind.None? then None
      else Some(AccountPatch(GivenValue(dto.name), GivenValue(dto.balance), kind, GivenValue(dto.currency)))
  }

  class AccountsService {
    const db: Database

    constructor (db: Database)
      ensures this.db == db
    {
      this.db := db;
    }

    /** Creates an account. Fails NotFound for an unknown user, then Forbidden
        when the user already has an account of that name (another user's
        account of the same name does not count). */
    method CreateAccount(dto: AccountDto, userId: Id) returns (r: Result<Saved<AccountData>>)
      requires db.Valid()
      modifies db
      ensures db.Valid()
      ensures userId !in old(db.users) ==> r == Err(NotFound)
      ensures userId in old(db.users) && HasAccountNamed(old(db.accounts), userId, dto.name) ==> r == Err(Forbidden)
      ensures userId in old(db.users) && !HasAccountNamed(old(db.accounts), userId, dto.name)
              && (ParseAccountType(dto.kind).None?
                  || !AccountFits(AccountData(dto.name, ParseAccountType(dto.kind).value, dto.balance, dto.currency)))
              ==> r == Err(Rejected)
      ensures r.Ok? <==> userId in old(db.users) && !HasAccountNamed(old(db.accounts), userId, dto.name)
                         && ParseAccountType(dto.kind).Some?
                         && AccountFits(AccountData(dto.name, ParseAccountType(dto.kind).value, dto.balance, dto.currency))
      ensures r.Err? ==> unchanged(db)
      ensures r.Ok? ==>
                && ParseAccountType(dto.kind).Some?
                && r.value.row == AccountData(dto.name, ParseAccountType(dto.kind).value, dto.balance, dto.currency)
                && r.value.id !in old(db.accounts)
                && db.accounts == old(db.accounts)[r.value.id := Owned(userId, r.value.row)]
      ensures db.users == old(db.users) && db.categories == old(db.categories)
      ensures db.transactions == old(db.transactions)
    {
      if userId !in db.users {
        return Err(NotFound);
      }
      if HasAccountNamed(db.accounts, userId, dto.name) {
        return Err(Forbidden);
      }
      var kind := ParseAccountType(dto.kind);
      if kind.None? {
        return Err(Rejected);
      }
      var row := AccountData(dto.name, kind.value, dto.balance, dto.currency);
      if !AccountFits(row) {
        return Err(Rejected);
      }
      var id := db.FreshId();
      db.accounts := db.accounts[id := Owned(userId, row)];
      assert AccountsOk(db.accounts, db.users);
      assert TransactionsOk(db.transactions, db.users, db.accounts, db.categories);
      r := Ok(Saved(id, row));
    }

    /** Exactly the accounts the user owns. */
    function FindAll(userId: Id): (r: map<Id, Account>)
      reads db
      ensures forall k :: k in r <==> k in db.accounts && db.accounts[k].owner == userId
      ensures forall k :: k in r ==> r[k] == db.accounts[k]
    {
      map k | k in db.accounts && db.accounts[k].owner == userId :: db.accounts[k]
    }

    /** The account, if it exists and the user owns it; otherwise NotFound,
        the same failure for a missing account and for someone else's. */
    function FindOne(id: Id, userId: Id): (r: Result<Account>)
      reads db
      ensures r.Ok? <==> id in db.accounts && db.accounts[id].owner == userId
      ensures r.Ok? ==> r.value == db.accounts[id]
      ensures r.Err? ==> r.error == NotFound
    {
      if id in db.accounts && db.accounts[id].owner == userId then Ok(db.accounts[id]) else Err(NotFound)
    }

    /** Merges the supplied fields into the account, the balance included:
        NotFound if the account does not exist, then Forbidden if another user
        owns it. No other account and no transaction changes. */
    method UpdateAccount(id: Id, dto: UpdateAccountDto, userId: Id) returns (r: Result<Saved<AccountData>>)
      requires db.Valid()
      modifies db
      ensures db.Valid()
      ensures id !in old(db.accounts) ==> r == Err(NotFound)
      ensures id in old(db.accounts) && old(db.accounts)[id].owner != userId ==> r == Err(Forbidden)
      ensures id in old(db.accounts) && old(db.accounts)[id].owner == userId
              && (PatchOf(dto).None? || !AccountFits(MergeAccount(old(db.accounts)[id].row, PatchOf(dto).value)))
              ==> r == Err(Rejected)
      ensures r.Ok? <==> id in old(db.accounts) && old(db.accounts)[id].owner == userId && PatchOf(dto).Some?
                         && AccountFits(MergeAccount(old(db.accounts)[id].row, PatchOf(dto).value))
      ensures r.Err? ==> unchanged(db)
      ensures r.Ok? ==>
                && id in old(db.accounts) && old(db.accounts)[id].owner == userId && PatchOf(dto).Some?
                && r.value == Saved(id, MergeAccount(old(db.accounts)[id].row, PatchOf(dto).value))
                && db.accounts == old(db.accounts)[id := Owned(userId, r.value.row)]
      ensures db.users == old(db.users) && db.categories == old(db.categories)
      ensures db.transactions == old(db.transactions) && db.nextId == old(db.nextId)
    {
      if id !in db.accounts {
        return Err(NotFound);
      }
      var account := db.accounts[id];
      if account.owner != userId {
        return Err(Forbidden);
      }
      var patch := PatchOf(dto);
      if patch.None? {
        return Err(Rejected);
      }
      var row := MergeAccount(account.row, patch.value);
      if !AccountFits(row) {
        return Err(Rejected);
      }
      db.accounts := db.accounts[id := Owned(userId, row)];
      assert AccountsOk(db.accounts, db.users);
      assert TransactionsOk(db.transactions, db.users, db.accounts, db.categories);
      r := Ok(Saved(id, row));
    }

    /** Removes the account: NotFound if it does not exist, then Forbidden if
        another user owns it. The foreign key of `transaction.account` cascades,
        so exactly the transactions booked against it go too. */
    method RemoveAccount(id: Id, userId: Id) returns (r: Result<()>)
      requires db.Valid()
      modifies db
      ensures db.Valid()
      ensures id !in old(db.accounts) ==> r == Err(NotFound)
      ensures id in old(db.accounts) && old(db.accounts)[id].owner != userId ==> r == Err(Forbidden)
      ensures r.Ok? <==> id in old(db.accounts) && old(db.accounts)[id].owner == userId
      ensures r.Err? ==> unchanged(db)
      ensures r.Ok? ==>
                && db.accounts == old(db.accounts) - {id}
                && db.transactions == WithoutAccount(old(db.transactions), id)
      ensures db.users == old(db.users) && db.categories == old(db.categories) && db.nextId == old(db.nextId)
    {
      if id !in db.accounts {
        return Err(NotFound);
      }
      if db.accounts[id].owner != userId {
        return Err(Forbidden);
      }
      db.transactions := WithoutAccount(db.transactions, id);
      db.accounts := db.accounts - {id};
      assert AccountsOk(db.accounts, db.users);
      assert TransactionsOk(db.transactions, db.users, db.accounts, db.categories);
      r := Ok(());
    }
  }
}

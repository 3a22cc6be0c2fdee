/** UsersService: sign-up, lookups and the per-user budget limit. */
module Users {
  import opened Common
  import opened UserEntity
  import opened Store

  /** The sign-up request. */
  datatype UserDto = UserDto(fullName: string, email: string, password: string)

  /** The shortest password sign-up accepts. */
  const MinPasswordLength: nat := 8

  /** The length of a string as JavaScript reports it: the number of UTF-16
      code units, where a character outside the Basic Multilingual Plane
      takes two. */
  function Utf16Length(s: string): (n: nat)
    ensures |s| <= n <= 2 * |s|
    ensures (forall i :: 0 <= i < |s| ==> (s[i] as int) < 0x1_0000) ==> n == |s|
    ensures (forall i :: 0 <= i < |s| ==> (s[i] as int) >= 0x1_0000) ==> n == 2 * |s|
  {
    if s == [] then 0
    else Utf16Length(s[..|s| - 1]) + (if (s[|s| - 1] as int) < 0x1_0000 then 1 else 2)
  }

  /** The length of a concatenation is the sum of the lengths. */
  lemma {:induction false} Utf16LengthAppend(a: string, b: string)
    ensures Utf16Length(a + b) == Utf16Length(a) + Utf16Length(b)
    decreases |b|
  {
    if b == [] {
      assert a + b == a;
    } else {
      var n := |b| - 1;
      assert (a + b)[..|a + b| - 1] == a + b[..n];
      assert (a + b)[|a + b| - 1] == b[n];
      Utf16LengthAppend(a, b[..n]);
    }
  }

  /** A password made only of characters outside the Basic Multilingual Plane
      (emoji, say) is long enough exactly when it has four characters or more:
      JavaScript counts each of them as two. */
  lemma AstralPasswordLength(password: string)
    requires forall i :: 0 <= i < |password| ==> (password[i] as int) >= 0x1_0000
    ensures Utf16Length(password) >= MinPasswordLength <==> |password| >= 4
  {
  }

  /** Four copies of U+1F600 make a long enough password, though the string
      has only four characters. */
  lemma FourEmojiAreEightUnits()
    ensures Utf16Length("\U{1F600}\U{1F600}\U{1F600}\U{1F600}") == MinPasswordLength
  {
    var e := "\U{1F600}";
    AstralPasswordLength(e + e + e + e);
    assert e + e + e + e == "\U{1F600}\U{1F600}\U{1F600}\U{1F600}";
  }

  class UsersService {
    const db: Database

    constructor (db: Database)
      ensures this.db == db
    {
      this.db := db;
    }

    /** Every stored user, one for one, with the password removed. */
    function FindAll(): (r: map<Id, Profile>)
      reads db
      ensures r.Keys == db.users.Keys
      ensures forall k :: k in r ==> r[k] == db.users[k].profile
    {
      map k | k in db.users :: db.users[k].profile
    }

    /** Whether some stored user has this email address. */
    predicate EmailTaken(email: string)
      reads db
    {
      exists k :: k in db.users && db.users[k].profile.email == email
    }

    /** Sign-up. `hash` stands for the password hashing function, whose salt
        and cost are not modelled. The email check comes before the password
        check; the new user's budget limit takes its default. */
    method CreateUser(dto: UserDto, hash: string -> string) returns (r: Result<Saved<Profile>>)
      requires db.Valid()
      modifies db
      ensures db.Valid()
      ensures old(EmailTaken(dto.email)) ==> r == Err(Conflict)
      ensures !old(EmailTaken(dto.email)) && Utf16Length(dto.password) < MinPasswordLength ==> r == Err(BadRequest)
      ensures !old(EmailTaken(dto.email)) && Utf16Length(dto.password) >= MinPasswordLength
              && !UserFits(User(Profile(dto.fullName, dto.email, DefaultBudgetLimit), hash(dto.password)))
              ==> r == Err(Rejected)
      ensures r.Ok? <==> !old(EmailTaken(dto.email)) && Utf16Length(dto.password) >= MinPasswordLength
                         && UserFits(User(Profile(dto.fullName, dto.email, DefaultBudgetLimit), hash(dto.password)))
      ensures r.Err? ==> unchanged(db)
      ensures r.Ok? ==>
                && r.value.id !in old(db.users)
                && r.value.row == Profile(dto.fullName, dto.email, DefaultBudgetLimit)
                && db.users == old(db.users)[r.value.id := User(r.value.row, hash(dto.password))]
      ensures db.accounts == old(db.accounts) && db.categories == old(db.categories)
      ensures db.transactions == old(db.transactions)
    {
      if EmailTaken(dto.email) {
        return Err(Conflict);
      }
      if Utf16Length(dto.password) < MinPasswordLength {
        return Err(BadRequest);
      }
      var profile := Profile(dto.fullName, dto.email, DefaultBudgetLimit);
      var user := User(profile, hash(dto.password));
      if !UserFits(user) {
        return Err(Rejected);
      }
      var id := db.FreshId();
      db.users := db.users[id := user];
      assert UsersOk(db.users);
      assert AccountsOk(db.accounts, db.users);
      assert CategoriesOk(db.categories, db.users);
      assert TransactionsOk(db.transactions, db.users, db.accounts, db.categories);
      r := Ok(Saved(id, profile));
    }

    /** The user with this email, or Unauthorized. Emails are unique, so the
        match is the only one. */
    function FindByEmail(email: string): (r: Result<User>)
      requires db.Valid()
      reads db
      ensures r.Ok? <==> EmailTaken(email)
      ensures r.Ok? ==> r.value.profile.email == email && r.value in db.users.Values
      ensures r.Err? ==> r.error == Unauthorized
    {
      if EmailTaken(email) then
        var k :| k in db.users && db.users[k].profile.email == email;
        Ok(db.users[k])
      else
        Err(Unauthorized)
    }

    /** The user with this id, or Unauthorized. */
    function FindById(id: Id): (r: Result<User>)
      reads db
      ensures r.Ok? <==> id in db.users
      ensures r.Ok? ==> r.value == db.users[id]
      ensures r.Err? ==> r.error == Unauthorized
    {
      if id in db.users then Ok(db.users[id]) else Err(Unauthorized)
    }

    /** The stored budget limit, or NotFound for an unknown user. */
    function FindBudgetLimit(userId: Id): (r: Result<Cents>)
      reads db
      ensures r.Ok? <==> userId in db.users
      ensures r.Ok? ==> r.value == db.users[userId].profile.budgetLimit
      ensures r.Err? ==> r.error == NotFound
    {
      if userId in db.users then Ok(db.users[userId].profile.budgetLimit) else Err(NotFound)
    }

    /** Sets the budget limit (the request is validated to be non-negative)
        and returns the saved user; nothing else changes, and reading the limit
        back gives `limit`. */
    method SetBudgetLimit(userId: Id, limit: Cents) returns (r: Result<User>)
      requires db.Valid()
      requires limit >= 0
      modifies db
      ensures db.Valid()
      ensures userId !in old(db.users) ==> r == Err(NotFound)
      ensures userId in old(db.users) && !FitsDecimal(limit) ==> r == Err(Rejected)
      ensures r.Ok? <==> userId in old(db.users) && FitsDecimal(limit)
      ensures r.Err? ==> unchanged(db)
      ensures r.Ok? ==>
                && userId in old(db.users)
                && var u := old(db.users)[userId];
                && r.value == User(u.profile.(budgetLimit := limit), u.password)
                && db.users == old(db.users)[userId := r.value]
                && FindBudgetLimit(userId) == Ok(limit)
      ensures db.accounts == old(db.accounts) && db.categories == old(db.categories)
      ensures db.transactions == old(db.transactions) && db.nextId == old(db.nextId)
    {
      if userId !in db.users {
        return Err(NotFound);
      }
      if !FitsDecimal(limit) {
        return Err(Rejected);
      }
      var u := db.users[userId];
      var saved := User(u.profile.(budgetLimit := limit), u.password);
      db.users := db.users[userId := saved];
      r := Ok(saved);
    }
  }
}

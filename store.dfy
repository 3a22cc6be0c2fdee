/** The relational store behind the four services: one table per entity and
    the referential integrity its foreign keys maintain. */
module Store {
  import opened Common
  import opened UserEntity
  import opened AccountEntity
  import opened CategoryEntity
  import opened TransactionEntity

  /** Every key of `m` is below `n`. */
  ghost predicate IdsBelow<T>(m: map<Id, T>, n: nat) {
    forall k :: k in m ==> k < n
  }

  /** Emails are unique, columns fit, and budget limits are never negative. */
  ghost predicate UsersOk(users: map<Id, User>) {
    && EmailsUnique(users)
    && forall k :: k in users ==> UserFits(users[k]) && users[k].profile.budgetLimit >= 0
  }

  /** Every account's owner exists and its columns fit. */
  ghost predicate AccountsOk(accounts: map<Id, Account>, users: map<Id, User>) {
    forall k :: k in accounts ==> accounts[k].owner in users && AccountFits(accounts[k].row)
  }

  /** Every category's owner and parent exist and its columns fit. */
  ghost predicate CategoriesOk(categories: map<Id, Category>, users: map<Id, User>) {
    && ParentsExist(categories)
    && forall k :: k in categories ==> categories[k].owner in users && CategoryFits(categories[k].row)
  }

  /** A transaction's links: its owner, its account and its category exist,
      and the account belongs to the transaction's owner. */
  ghost predicate Linked(t: Transaction, users: map<Id, User>, accounts: map<Id, Account>,
                         categories: map<Id, Category>) {
    && t.owner in users
    && t.row.account in accounts
    && accounts[t.row.account].owner == t.owner
    && (t.row.category.Some? ==> t.row.category.value in categories)
  }

  ghost predicate TransactionsOk(transactions: map<Id, Transaction>, users: map<Id, User>,
                                 accounts: map<Id, Account>, categories: map<Id, Category>) {
    forall k :: k in transactions ==>
      Linked(transactions[k], users, accounts, categories) && TransactionFits(transactions[k].row)
  }

  class Database {
    var users: map<Id, User>
    var accounts: map<Id, Account>
    var categories: map<Id, Category>
    var transactions: map<Id, Transaction>
    /** Every id handed out so far is below `nextId`. */
    var nextId: nat

    ghost predicate Valid()
      reads this
    {
      && IdsBelow(users, nextId)
      && IdsBelow(accounts, nextId)
      && IdsBelow(categories, nextId)
      && IdsBelow(transactions, nextId)
      && UsersOk(users)
      && AccountsOk(accounts, users)
      && CategoriesOk(categories, users)
      && TransactionsOk(transactions, users, accounts, categories)
    }

    constructor ()
      ensures Valid()
      ensures users == map[] && accounts == map[] && categories == map[] && transactions == map[]
    {
      users, accounts, categories, transactions := map[], map[], map[], map[];
      nextId := 0;
    }

    /** The id the database generates for the next insert: one no table uses. */
    method FreshId() returns (id: Id)
      requires Valid()
      modifies this
      ensures id == old(nextId) && nextId == id + 1
      ensures id !in users && id !in accounts && id !in categories && id !in transactions
      ensures users == old(users) && accounts == old(accounts)
      ensures categories == old(categories) && transactions == old(transactions)
      ensures Valid()
    {
      id := nextId;
      nextId := nextId + 1;
    }
  }
}

# Wallet back end: the store behind the four services

This project is a Dafny model of the data layer of a personal-finance back end.
Users own accounts, categories and transactions. Four services operate on one
relational store:

- **AccountsService**: create, list, read, update and remove accounts.
- **CategoriesService**: create, list, read, update and delete categories, which may have a parent category.
- **TransactionsService**: book, list, read, update and delete incomes and expenses, and compute the figures of the transaction report.
- **UsersService**: sign-up, lookups, and the per-user budget limit.

The store is one class, `Store.Database`. It holds four tables as maps from id
to row, plus a counter that stands for the database's id generator.
`Database.Valid()` is the invariant every operation preserves. The schema's
foreign keys and column types enforce part of it:

- every row's owner exists;
- every transaction's account exists, and so does every category a transaction or a category refers to;
- every column fits its declared type.

The services maintain the rest, with no help from the schema, provided each request body carries only its declared fields (see "Request bodies" under "## Left out"):

- Emails are unique. The email column has no unique constraint; sign-up checks for a taken email before it inserts, and each call is one atomic step.
- Every transaction's account belongs to the transaction's owner. Creating a transaction checks the account's owner, and no operation changes an account's owner or a transaction's account.
- Every budget limit is at least 0. The column allows negative values; the request validation of the budget-limit endpoint (`@Min(0)`) refuses them, which the model carries as `SetBudgetLimit`'s precondition, and sign-up sets the default 0.

Each service is a class holding the database. Every call is one atomic step. It
returns `Ok(value)` or `Err(e)`, where `e` is one of the HTTP failures the code
throws (`NotFound`, `Forbidden`, `Conflict`, `BadRequest`, `Unauthorized`) or
`Rejected`: a write the database itself refuses (an over-long string, a value
outside `decimal(10,2)`, a string that is not an enum label, or a foreign key
that forbids a delete, and an explicit `null` in an update request for a column that is NOT NULL). The code does not catch these database errors; the
model gives them a name so that every call has a defined outcome.

Every mutating method states:

- the check order and the failure each check produces;
- that it succeeds exactly when every check passes;
- that a failed call changes nothing;
- the exact new contents of every table;
- that `Valid()` is preserved.

Queries are functions over the current state. Amounts are exact integers of
hundredths, so the report totals are exact sums.

The model follows the code, also where it departs from what a ledger would be expected to do:

- A duplicate account or category name fails with `Forbidden`, not `Conflict`.
- No transaction operation changes an account balance. There is no balance maintenance and no budget-overrun advisory.
- Creating a transaction does not check who owns the category, so a transaction may refer to another user's category.
- Deleting a category does not delete the transactions that refer to it. The category foreign key of a transaction has no delete rule, so the database refuses such a delete (`Rejected`). The parent key's `ON DELETE CASCADE` removes the whole subtree below the category, including categories other users own.
- `setBudgetLimit` returns the whole saved user, password hash included.

## Model

| member | source | states |
|---|---|---|
| Store.Database.Valid | src/modules/transactions/entities/transaction.entity.ts:21-28 | the store invariant every operation keeps: ids lie below the id counter; every account's, category's and transaction's owner exists (account.entity.ts:8, category.entity.ts:20); every parent category exists (category.entity.ts:11-15); a transaction's account exists and belongs to its owner, and its category, when set, exists; emails are unique; budget limits are at least 0; every row fits its columns |
| AccountEntity.ParseAccountType | src/modules/accounts/entities/account.entity.ts:14-15 | the type column accepts exactly the three labels; a parsed value's label is the input string |
| AccountEntity.AccountTypeRoundTrip | src/modules/accounts/entities/account.entity.ts:14 | writing an account type and reading it back gives the same type |
| AccountEntity.HasAccountNamed | src/modules/accounts/accounts.service.ts:33-40 | the duplicate-name lookup: whether the user already owns an account of that name; other users' accounts are not considered |
| AccountEntity.AccountFits | src/modules/accounts/entities/account.entity.ts:11-21 | an account row fits its columns exactly when the name has at most 255 characters, the balance fits `decimal(10,2)` and the currency has at most 3 characters; a row that does not fit is `Rejected` |
| AccountEntity.MergeAccount | src/modules/accounts/accounts.service.ts:135 | a supplied field replaces the stored one and an absent field keeps its value, the balance included; an empty patch changes nothing |
| AccountEntity.MergeIdempotent | src/modules/accounts/accounts.service.ts:135 | applying the same update twice equals applying it once |
| Accounts.PatchOf | src/modules/accounts/accounts.service.ts:135 | an update request is refused exactly when it sends `null` for one of the four NOT NULL columns or a type that is not a label; otherwise it carries the supplied fields unchanged and leaves out the omitted ones |
| Accounts.AccountsService.CreateAccount | src/modules/accounts/accounts.service.ts:18-62 | NotFound for an unknown user, then Forbidden if that user already has an account of the name; another user's account of that name does not block. It succeeds exactly when the user exists, the name is free, the type is a label and the row fits its columns. On success exactly one row is added under a fresh id, owned by the caller, with the supplied columns; other tables are unchanged |
| Accounts.AccountsService.FindAll | src/modules/accounts/accounts.service.ts:64-80 | exactly the caller's accounts |
| Accounts.AccountsService.FindOne | src/modules/accounts/accounts.service.ts:82-111 | the account when it exists and the caller owns it; NotFound both for a missing id and for another user's account |
| Accounts.AccountsService.UpdateAccount | src/modules/accounts/accounts.service.ts:113-142 | NotFound, then Forbidden for another user's account; it succeeds exactly when the caller owns the account, the request is accepted and the merged row fits. On success only that row changes, to the field-wise merge, and no transaction changes |
| Accounts.AccountsService.RemoveAccount | src/modules/accounts/accounts.service.ts:144-167 | NotFound, then Forbidden; it succeeds exactly when the account exists and the caller owns it. On success exactly that account goes, and so do exactly the transactions booked against it |
| TransactionEntity.WithoutAccount | src/modules/transactions/entities/transaction.entity.ts:21 | the cascade from an account removes exactly the transactions that reference it and keeps every other one as it was |
| CategoryEntity.HasCategoryNamed | src/modules/categories/categories.service.ts:33-40 | the duplicate-name lookup: whether the user already owns a category of that name; other users' categories are not considered |
| CategoryEntity.CategoryFits | src/modules/categories/entities/category.entity.ts:8-9 | a category row fits exactly when its name has at most 255 characters |
| CategoryEntity.Subcategories | src/modules/categories/entities/category.entity.ts:17 | the subcategories of c are exactly the categories whose parent is c |
| CategoryEntity.Subtree | src/modules/categories/entities/category.entity.ts:14 | the rows the parent cascade deletes: they include the deleted ones, are stored rows, and include every child of a deleted row |
| CategoryEntity.SubtreeLeast | src/modules/categories/entities/category.entity.ts:14 | the cascade deletes nothing more than it must: it lies inside every set that contains the deleted rows and every child of its members |
| CategoryEntity.SubtreeHasSubcategories | src/modules/categories/entities/category.entity.ts:14-17 | deleting a category deletes it and its direct subcategories |
| CategoryEntity.CascadeKeepsParents | src/modules/categories/entities/category.entity.ts:11-14 | after the cascade every remaining parent reference points at a stored category |
| Categories.UpdatedName | src/modules/categories/categories.service.ts:174 | the name changes to the supplied one only when it is present and non-empty |
| Categories.UpdatedRow | src/modules/categories/categories.service.ts:158-174 | the row an update saves: a supplied parent replaces the stored one and an absent one keeps it, the name follows `UpdatedName`, and an empty request changes nothing |
| Categories.CategoriesService.CreateCategory | src/modules/categories/categories.service.ts:18-81 | NotFound for an unknown user, then Forbidden for a name the user already uses, then NotFound for a parent id that no category has, whoever owns it. On success exactly one row is added, owned by the caller, with the supplied parent or none. It succeeds exactly when the user exists, the name is free, a supplied parent exists and the row fits |
| Categories.CategoriesService.GetAllCategories | src/modules/categories/categories.service.ts:83-98 | NotFound for an unknown user; otherwise exactly the user's categories |
| Categories.CategoriesService.GetCategoryById | src/modules/categories/categories.service.ts:100-132 | the category with exactly its direct subcategories when the user exists and owns it; otherwise NotFound, also for another user's category |
| Categories.CategoriesService.UpdateCategory | src/modules/categories/categories.service.ts:134-181 | NotFound unless the user exists and owns the category; a supplied parent must exist (NotFound) and replaces the parent, an absent one keeps it. The name changes only to a non-empty value. There is no duplicate or cycle check, and only that row changes. Rejected when the updated row does not fit; it succeeds exactly when the user owns the category, a supplied parent exists and the updated row fits |
| Categories.ReferencedByTransaction | src/modules/transactions/entities/transaction.entity.ts:24 | whether a stored transaction refers to one of the given categories; the category foreign key has no delete rule, so such a reference makes the database refuse the delete |
| Categories.CategoriesService.DeleteCategory | src/modules/categories/categories.service.ts:183-207 | NotFound unless the user exists and owns the category; Rejected while a transaction refers to a category in the cascade; on success exactly the cascade's rows are removed and every other table is unchanged. It succeeds exactly when the caller owns the category and no transaction refers to the cascade |
| TransactionEntity.ParseTxType | src/modules/transactions/entities/transaction.entity.ts:12-13 | the type column accepts exactly `income` and `expense` |
| TransactionEntity.TxTypeRoundTrip | src/modules/transactions/entities/transaction.entity.ts:12 | writing a transaction type and reading it back gives the same type |
| TransactionEntity.TransactionFits | src/modules/transactions/entities/transaction.entity.ts:9-10 | a transaction row fits exactly when its amount fits `decimal(10,2)`; the description is unbounded text |
| TransactionEntity.MergeTransaction | src/modules/transactions/transactions.service.ts:153-156 | supplied fields replace stored ones, absent fields are kept, and a description sent as `null` is cleared; account and category never change; an empty patch changes nothing |
| Transactions.RowOf | src/modules/transactions/transactions.service.ts:81-87 | the stored row carries the given account and category and the supplied amount, type, description and date; it is refused exactly when the type is not a label |
| Transactions.PatchOf | src/modules/transactions/transactions.service.ts:153-156 | an update request is refused exactly when it sends `null` for the amount, type or date (NOT NULL columns) or a type that is not a label; a `null` description becomes a request to clear it; otherwise the supplied fields are carried unchanged |
| Transactions.TransactionsService.CreateTransaction | src/modules/transactions/transactions.service.ts:33-94 | NotFound for the user, NotFound for the account, Forbidden for another user's account, NotFound for the category, in that order, with the first failure winning and nothing stored; the category's owner is never compared. It succeeds exactly when all four checks pass and the row is accepted and fits. On success exactly one row is added; users, accounts (balances included) and categories are unchanged |
| Transactions.TransactionsService.FindAll | src/modules/transactions/transactions.service.ts:96-101 | exactly the caller's transactions |
| Transactions.TransactionsService.FindOne | src/modules/transactions/transactions.service.ts:103-125 | the transaction when it exists and the caller owns it; NotFound for a missing id and for another user's transaction |
| Transactions.TransactionsService.UpdateTransaction | src/modules/transactions/transactions.service.ts:127-163 | NotFound, then Forbidden; it succeeds exactly when the caller owns the row, the request is accepted and the merged row fits. On success only that row changes, to the merge, keeping owner, account and category; no balance changes |
| Transactions.TransactionsService.DeleteTransaction | src/modules/transactions/transactions.service.ts:165-188 | NotFound, then Forbidden; it succeeds exactly when the row exists and the caller owns it. On success exactly that row is removed and no balance changes |
| Transactions.TransactionsService.GenerateReport | src/modules/transactions/transactions.service.ts:194-237 | the report lists each of the caller's transactions inside the optional date bounds exactly once; its totals are the sums of income and of expense amounts over them; balance is income minus expenses and equals their net flow; any other order of the same rows gives the same totals |
| Report.InReport | src/modules/transactions/transactions.service.ts:205-220 | the report's filter: the transaction is the user's, and its date is no earlier than a supplied start and no later than a supplied end; a missing bound does not filter |
| Report.Summarize | src/modules/transactions/transactions.service.ts:225-237 | income and expense totals are the sums by type, balance is their difference, and an empty selection gives three zeros |
| Report.SumOfAppend | src/modules/transactions/transactions.service.ts:228-235 | the total over two lists of rows is the sum of their totals |
| Report.SumOfSnoc | src/modules/transactions/transactions.service.ts:228-235 | one more row adds exactly its own amount to the total of its type and nothing to the other |
| Report.SumOfWithout | src/modules/transactions/transactions.service.ts:228-235 | taking one row out of the list takes exactly its share out of the total |
| Report.SumOfPermutation | src/modules/transactions/transactions.service.ts:228-235 | the total does not depend on the order of the rows |
| Report.BalanceIsNetFlow | src/modules/transactions/transactions.service.ts:237 | the balance figure is the net flow of the rows: incomes added, expenses subtracted |
| Report.TotalsIgnoreOrder | src/modules/transactions/transactions.service.ts:222 | two enumerations of the same selected rows give the same three figures |
| UserEntity.UserFits | src/common/entities/basic-user-info.entity.ts:6-10 | a user row fits exactly when the full name has at most 500 characters, the email at most 255, and the budget limit (user.entity.ts:9) fits `decimal(10,2)`; the password hash is unbounded |
| Users.Utf16Length | src/modules/users/users.service.ts:43 | the length JavaScript gives a string: one unit per character below U+10000 and two for each other one, so between the number of characters and twice it; exactly the number of characters when all are below U+10000 and exactly twice it when none is |
| Users.Utf16LengthAppend | src/modules/users/users.service.ts:43 | the UTF-16 length of a concatenation is the sum of the lengths of its parts |
| Users.AstralPasswordLength | src/modules/users/users.service.ts:43 | a password made only of characters outside the Basic Multilingual Plane meets the 8-unit minimum exactly when it has at least four characters |
| Users.FourEmojiAreEightUnits | src/modules/users/users.service.ts:43 | an instance: the four-character string of four U+1F600 is exactly 8 units long, so it is accepted |
| Users.UsersService.EmailTaken | src/modules/users/users.service.ts:29-31 | whether some stored user already has the email address sign-up is asked for |
| Users.UsersService.FindAll | src/modules/users/users.service.ts:15-24 | every stored user, one for one, with the password removed |
| Users.UsersService.CreateUser | src/modules/users/users.service.ts:26-69 | Conflict for a taken email, checked before BadRequest for a password under 8 UTF-16 code units; it succeeds exactly when the email is free, the password is long enough and the new row fits. On success one user is added with the password replaced by its hash and a budget limit of 0, and the result has no password |
| Users.UsersService.FindByEmail | src/modules/users/users.service.ts:71-77 | the unique user with that email, or Unauthorized when there is none |
| Users.UsersService.FindById | src/modules/users/users.service.ts:79-85 | the user with that id, or Unauthorized |
| Users.UsersService.SetBudgetLimit | src/modules/users/users.service.ts:87-97 | NotFound for an unknown user, Rejected for a limit outside `decimal(10,2)`; it succeeds exactly when the user exists and the limit fits. On success only the budget limit changes, the saved user is returned, and reading the limit back gives the new value |
| Users.UsersService.FindBudgetLimit | src/modules/users/users.service.ts:99-110 | the stored limit, or NotFound for an unknown user |

## Left out

- Controllers, JWT guards and module wiring: the caller's id is a method argument.
- Password hashing: `bcrypt.hash` and its salt rounds are a function parameter `hash` of `CreateUser`. The login comparison in the auth service is not part of this model.
- PDF production in `generatePdfReport`: fonts, layout, number and date formatting, and the byte stream. The model produces the selected rows and the three totals.
- Floating point: amounts are exact integer hundredths, as the `decimal(10,2)` columns store them. The JavaScript number arithmetic of the report sums, and `parseFloat(...) || 0`, are not modelled. The `decimal(10,2)` columns round a request value with more than two decimals (a budget limit of 10.555 reads back as 10.56); the model takes every amount already in hundredths, so the rounding never arises and the read-back of `SetBudgetLimit` and the supplied amount stored by `RowOf` hold for every input it accepts.
- Concurrency: every service call is one atomic step, so races between requests are not modelled.
- Request bodies: each request body is taken to carry exactly the fields its request class declares, of the declared types; the sign-up request class has no validation rules at all. The services copy the whole body into the new row on create and merge it into the stored row on update, so a body with extra properties (an `id`, a `user`, a `budgetLimit`) would set those columns too: a sign-up could store a negative budget limit, an account update could change the account's owner, and a create carrying an existing id would update that row instead of adding one. Such extra properties are not modelled, nor a sign-up body with a missing field (a missing password fails on its length, a missing email makes the lookup match any user). The service-maintained invariants above (unique emails, accounts belonging to their transactions' owners, budget limits of at least 0) and the fresh id of every create rest on this assumption.
- Ids: UUIDs are drawn from a counter, so an id string that is not a valid UUID (which the database would refuse) is not modelled.
- Deleting a user: no operation of these services deletes a user, so the `ON DELETE CASCADE` from users to accounts, categories and transactions is not exercised. `Valid()` states that every row's owner exists.
- Column defaults: the account type, balance and currency defaults and the transaction date default. The create requests always supply these columns, so the defaults never apply. `AccountEntity` and `UserEntity` record the values as constants.
- Relation loading and `select` projections: which related rows and user fields a response embeds. Results are the stored row with the owning user stripped, as `Saved(id, row)`.
- Order: list results are maps, so the order the database returns them in is not modelled. The report takes its rows in an arbitrary order, and `Report.TotalsIgnoreOrder` shows that the totals do not depend on it.
- Users.UsersService.FindByEmail: requires `Valid()`, because the uniqueness of emails that makes the match unique is a store invariant. No unique constraint backs it: it rests on sign-up's check and on every call being atomic. Two concurrent sign-ups with one email could both pass the check, and the model does not capture that.
- AccountEntity.AccountFits: refuses every over-long name or currency as `Rejected`. PostgreSQL instead stores a `varchar(n)` value whose characters beyond `n` are all spaces cut to `n` (so `"RWF "` is stored as `"RWF"`); that truncation is not modelled, nor the duplicate-name check it would let such a name slip past.
- CategoryEntity.CategoryFits: refuses an over-long name as `Rejected`; the same trailing-space truncation is not modelled.
- UserEntity.UserFits: refuses an over-long full name or email as `Rejected`; the same trailing-space truncation is not modelled, nor the duplicate-email check it would let such an email slip past.
- Timestamps: dates are integers on a time line, and the parsing of ISO date strings is not modelled.

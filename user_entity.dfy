/** The `User` entity: profile columns, the hashed password and the budget limit. */
module UserEntity {
  import opened Common

  /** What a caller may see of a user: every column except the password. */
  datatype Profile = Profile(fullName: string, email: string, budgetLimit: Cents)

  datatype User = User(profile: Profile, password: string)

  /** The column constraints: `fullName` is varchar(500), `email` varchar(255),
      `budgetLimit` decimal(10,2). */
  predicate UserFits(u: User) {
    && |u.profile.fullName| <= 500
    && |u.profile.email| <= 255
    && FitsDecimal(u.profile.budgetLimit)
  }

  /** The budget limit column defaults to 0. */
  const DefaultBudgetLimit: Cents := 0

  /** No two users share an email address. */
  ghost predicate EmailsUnique(users: map<Id, User>) {
    forall j, k :: j in users && k in users && users[j].profile.email == users[k].profile.email ==> j == k
  }
}

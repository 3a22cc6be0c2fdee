/** CategoriesService: a user's categories, with per-user unique names on
    creation, a parent found by a lookup over all users' categories, and
    deletion that cascades to subcategories. */
module Categories {
  import opened Common
  import opened CategoryEntity
  import opened TransactionEntity
  import opened Store

  datatype CreateCategoryDto = CreateCategoryDto(name: string, parentId: Option<Id>)

  datatype UpdateCategoryDto = UpdateCategoryDto(name: Option<string>, parentId: Option<Id>)

  /** A category with its relations loaded: its parent id is in the row, and
      its direct subcategories are listed. */
  datatype CategoryView = CategoryView(category: Category, subcategories: set<Id>)

  /** The name an update leaves: the supplied one unless it is absent or empty. */
  function UpdatedName(current: string, supplied: Option<string>): (r: string)
    ensures supplied.Some? && supplied.value != "" ==> r == supplied.value
    ensures supplied.None? || supplied.value == "" ==> r == current
  {
    if supplied.Some? && supplied.value != "" then supplied.value else current
  }

  /** The row an update leaves: the name as `UpdatedName` says, and the
      supplied parent or, when none is given, the old one. */
  function UpdatedRow(current: CategoryData, dto: UpdateCategoryDto): (r: CategoryData)
    ensures r.name == UpdatedName(current.name, dto.name)
    ensures dto.parentId.Some? ==> r.parent == dto.parentId
    ensures dto.parentId.None? ==> r.parent == current.parent
    ensures dto == UpdateCategoryDto(None, None) ==> r == current
  {
    CategoryData(UpdatedName(current.name, dto.name), if dto.parentId.Some? then dto.parentId else current.parent)
  }

  /** Whether some stored transaction refers to one of the categories `gone`. */
  predicate ReferencedByTransaction(transactions: map<Id, Transaction>, gone: set<Id>) {
    exists k :: k in transactions && transactions[k].row.category.Some? && transactions[k].row.category.value in gone
  }

  class CategoriesService {
    const db: Database

    constructor (db: Database)
      ensures this.db == db
    {
      this.db := db;
    }

    /** Creates a category: NotFound for an unknown user, then Forbidden when
        the user already has a category of that name, then NotFound when a
        parent id is given and no category at all has it. The parent may belong
        to another user. */
    method CreateCategory(dto: CreateCategoryDto, userId: Id) returns (r: Result<Saved<CategoryData>>)
      requires db.Valid()
      modifies db
      ensures db.Valid()
      ensures userId !in old(db.users) ==> r == Err(NotFound)
      ensures userId in old(db.users) && HasCategoryNamed(old(db.categories), userId, dto.name)
              ==> r == Err(Forbidden)
      ensures userId in old(db.users) && !HasCategoryNamed(old(db.categories), userId, dto.name)
              && dto.parentId.Some? && dto.parentId.value !in old(db.categories)
              ==> r == Err(NotFound)
      ensures userId in old(db.users) && !HasCategoryNamed(old(db.categories), userId, dto.name)
              && (dto.parentId.Some? ==> dto.parentId.value in old(db.categories))
              && !CategoryFits(CategoryData(dto.name, dto.parentId))
              ==> r == Err(Rejected)
      ensures r.Ok? <==> userId in old(db.users) && !HasCategoryNamed(old(db.categories), userId, dto.name)
                         && (dto.parentId.Some? ==> dto.parentId.value in old(db.categories))
                         && CategoryFits(CategoryData(dto.name, dto.parentId))
      ensures r.Err? ==> unchanged(db)
      ensures r.Ok? ==>
                && r.value.row == CategoryData(dto.name, dto.parentId)
                && r.value.id !in old(db.categories)
                && db.categories == old(db.categories)[r.value.id := Owned(userId, r.value.row)]
      ensures db.users == old(db.users) && db.accounts == old(db.accounts)
      ensures db.transactions == old(db.transactions)
    {
      if userId !in db.users {
        return Err(NotFound);
      }
      if HasCategoryNamed(db.categories, userId, dto.name) {
        return Err(Forbidden);
      }
      if dto.parentId.Some? && dto.parentId.value !in db.categories {
        return Err(NotFound);
      }
      var row := CategoryData(dto.name, dto.parentId);
      if !CategoryFits(row) {
        return Err(Rejected);
      }
      var id := db.FreshId();
      db.categories := db.categories[id := Owned(userId, row)];
      assert CategoriesOk(db.categories, db.users);
      assert TransactionsOk(db.transactions, db.users, db.accounts, db.categories);
      r := Ok(Saved(id, row));
    }

    /** Exactly the user's categories, or NotFound for an unknown user. */
    function GetAllCategories(userId: Id): (r: Result<map<Id, Category>>)
      reads db
      ensures r.Ok? <==> userId in db.users
      ensures r.Err? ==> r.error == NotFound
      ensures r.Ok? ==> forall k :: k in r.value <==> k in db.categories && db.categories[k].owner == userId
      ensures r.Ok? ==> forall k :: k in r.value ==> r.value[k] == db.categories[k]
    {
      if userId !in db.users then Err(NotFound)
      else Ok(map k | k in db.categories && db.categories[k].owner == userId :: db.categories[k])
    }

    /** The category with its subcategories, if the user exists and owns it;
        otherwise NotFound, also when someone else owns it. */
    function GetCategoryById(categoryId: Id, userId: Id): (r: Result<CategoryView>)
      reads db
      ensures r.Ok? <==> userId in db.users && categoryId in db.categories
                         && db.categories[categoryId].owner == userId
      ensures r.Err? ==> r.error == NotFound
      ensures r.Ok? ==> r.value.category == db.categories[categoryId]
      ensures r.Ok? ==> forall d :: d in r.value.subcategories <==>
                          d in db.categories && db.categories[d].row.parent == Some(categoryId)
    {
      if userId !in db.users then Err(NotFound)
      else if categoryId !in db.categories || db.categories[categoryId].owner != userId then Err(NotFound)
      else Ok(CategoryView(db.categories[categoryId], Subcategories(db.categories, categoryId)))
    }

    /** Updates a category the user owns (NotFound otherwise). A supplied
        parent id must exist (else NotFound) and replaces the parent; an absent
        one keeps it. The name changes only to a non-empty value. There is no
        duplicate-name check and no cycle check: a category may become its own
        parent. */
    method UpdateCategory(categoryId: Id, dto: UpdateCategoryDto, userId: Id)
      returns (r: Result<Saved<CategoryData>>)
      requires db.Valid()
      modifies db
      ensures db.Valid()
      ensures userId !in old(db.users) ==> r == Err(NotFound)
      ensures categoryId !in old(db.categories) || old(db.categories)[categoryId].owner != userId
              ==> r == Err(NotFound)
      ensures dto.parentId.Some? && dto.parentId.value !in old(db.categories) ==> r == Err(NotFound)
      ensures userId in old(db.users) && categoryId in old(db.categories)
              && old(db.categories)[categoryId].owner == userId
              && (dto.parentId.Some? ==> dto.parentId.value in old(db.categories))
              && !CategoryFits(UpdatedRow(old(db.categories)[categoryId].row, dto))
              ==> r == Err(Rejected)
      ensures r.Ok? <==> userId in old(db.users) && categoryId in old(db.categories)
                         && old(db.categories)[categoryId].owner == userId
                         && (dto.parentId.Some? ==> dto.parentId.value in old(db.categories))
                         && CategoryFits(UpdatedRow(old(db.categories)[categoryId].row, dto))
      ensures r.Err? ==> unchanged(db)
      ensures r.Ok? ==>
                && userId in old(db.users) && categoryId in old(db.categories)
                && var c := old(db.categories)[categoryId];
                && c.owner == userId
                && r.value == Saved(categoryId, UpdatedRow(c.row, dto))
                && db.categories == old(db.categories)[categoryId := Owned(userId, r.value.row)]
      ensures db.users == old(db.users) && db.accounts == old(db.accounts)
      ensures db.transactions == old(db.transactions) && db.nextId == old(db.nextId)
    {
      if userId !in db.users {
        return Err(NotFound);
      }
      if categoryId !in db.categories || db.categories[categoryId].owner != userId {
        return Err(NotFound);
      }
      var category := db.categories[categoryId];
      var parent := category.row.parent;
      if dto.parentId.Some? {
        if dto.parentId.value !in db.categories {
          return Err(NotFound);
        }
        parent := dto.parentId;
      }
      var row := CategoryData(UpdatedName(category.row.name, dto.name), parent);
      assert row == UpdatedRow(category.row, dto);
      if !CategoryFits(row) {
        return Err(Rejected);
      }
      db.categories := db.categories[categoryId := Owned(userId, row)];
      assert CategoriesOk(db.categories, db.users);
      assert TransactionsOk(db.transactions, db.users, db.accounts, db.categories);
      r := Ok(Saved(categoryId, row));
    }

    /** Deletes a category the user owns (NotFound otherwise). The parent
        foreign key cascades, so every category below it goes too, whoever
        owns it; the transactions' category key has no delete rule, so the
        database refuses the delete while a transaction refers to any of them. */
    method DeleteCategory(categoryId: Id, userId: Id) returns (r: Result<()>)
      requires db.Valid()
      modifies db
      ensures db.Valid()
      ensures userId !in old(db.users) ==> r == Err(NotFound)
      ensures categoryId !in old(db.categories) || old(db.categories)[categoryId].owner != userId
              ==> r == Err(NotFound)
      ensures userId in old(db.users) && categoryId in old(db.categories)
              && old(db.categories)[categoryId].owner == userId
              && ReferencedByTransaction(old(db.transactions), Subtree(old(db.categories), {categoryId}))
              ==> r == Err(Rejected)
      ensures r.Ok? <==> userId in old(db.users) && categoryId in old(db.categories)
                         && old(db.categories)[categoryId].owner == userId
                         && !ReferencedByTransaction(old(db.transactions), Subtree(old(db.categories), {categoryId}))
      ensures r.Err? ==> unchanged(db)
      ensures r.Ok? ==>
                && categoryId in old(db.categories)
                && db.categories == old(db.categories) - Subtree(old(db.categories), {categoryId})
      ensures db.users == old(db.users) && db.accounts == old(db.accounts)
      ensures db.transactions == old(db.transactions) && db.nextId == old(db.nextId)
    {
      if userId !in db.users {
        return Err(NotFound);
      }
      if categoryId !in db.categories || db.categories[categoryId].owner != userId {
        return Err(NotFound);
      }
      var gone := Subtree(db.categories, {categoryId});
      if ReferencedByTransaction(db.transactions, gone) {
        return Err(Rejected);
      }
      CascadeKeepsParents(db.categories, {categoryId});
      db.categories := db.categories - gone;
      assert CategoriesOk(db.categories, db.users);
      assert TransactionsOk(db.transactions, db.users, db.accounts, db.categories);
      r := Ok(());
    }
  }
}

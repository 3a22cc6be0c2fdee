/** The `Category` entity: a named category of one user, with an optional
    parent category (a self-referencing many-to-one relation whose foreign key
    cascades on delete). */
module CategoryEntity {
  import opened Common

  datatype CategoryData = CategoryData(name: string, parent: Option<Id>)

  /** Every category belongs to exactly one user. */
  type Category = Owned<CategoryData>

  /** The column constraint: `name` is varchar(255). */
  predicate CategoryFits(d: CategoryData) {
    |d.name| <= 255
  }

  /** Whether `user` already has a category called `name`. */
  predicate HasCategoryNamed(categories: map<Id, Category>, user: Id, name: string) {
    exists k :: k in categories && categories[k].owner == user && categories[k].row.name == name
  }

  /** Every parent reference points at a stored category. */
  ghost predicate ParentsExist(categories: map<Id, Category>) {
    forall k :: k in categories && categories[k].row.parent.Some? ==> categories[k].row.parent.value in categories
  }

  /** The inverse side of the parent relation: the direct subcategories of `c`. */
  function Subcategories(categories: map<Id, Category>, c: Id): (r: set<Id>)
    ensures forall d :: d in r <==> d in categories && categories[d].row.parent == Some(c)
  {
    set d | d in categories && categories[d].row.parent == Some(c)
  }

  /** `s` holds every category whose parent is in `s`. */
  ghost predicate ClosedUnderChildren(categories: map<Id, Category>, s: set<Id>) {
    forall d :: d in categories && categories[d].row.parent.Some? && categories[d].row.parent.value in s ==> d in s
  }

  /** The categories one step below `s`, together with `s`. */
  function Grow(categories: map<Id, Category>, s: set<Id>): set<Id> {
    s + set d | d in categories && categories[d].row.parent.Some? && categories[d].row.parent.value in s
  }

  /** Growing a set inside `keys` leaves fewer keys outside it. */
  lemma StrictlyFewerLeft(keys: set<Id>, s: set<Id>, s': set<Id>)
    requires s < s' <= keys
    ensures |keys - s'| < |keys - s|
  {
    var x :| x in s' && x !in s;
    SubsetNoLarger(keys - s', (keys - s) - {x});
  }

  lemma {:induction false} SubsetNoLarger(a: set<Id>, b: set<Id>)
    requires a <= b
    ensures |a| <= |b|
    decreases |a|
  {
    if a != {} {
      var x :| x in a;
      SubsetNoLarger(a - {x}, b - {x});
    }
  }

  /** The rows an ON DELETE CASCADE removes when the categories `doomed` are
      deleted: `doomed` and, transitively, every category whose parent is
      removed. Parent links may form cycles (nothing forbids them), so this is
      computed as a fixed point rather than by walking a tree. */
  function Subtree(categories: map<Id, Category>, doomed: set<Id>): (r: set<Id>)
    requires doomed <= categories.Keys
    ensures doomed <= r <= categories.Keys
    ensures ClosedUnderChildren(categories, r)
    decreases |categories.Keys - doomed|
  {
    var next := Grow(categories, doomed);
    if next == doomed then doomed
    else
      StrictlyFewerLeft(categories.Keys, doomed, next);
      Subtree(categories, next)
  }

  /** The cascade removes nothing it does not have to: `Subtree` is the least
      set that contains `doomed` and is closed under children. */
  lemma {:induction false} SubtreeLeast(categories: map<Id, Category>, doomed: set<Id>, t: set<Id>)
    requires doomed <= categories.Keys
    requires doomed <= t && ClosedUnderChildren(categories, t)
    ensures Subtree(categories, doomed) <= t
    decreases |categories.Keys - doomed|
  {
    var next := Grow(categories, doomed);
    if next != doomed {
      assert next <= t;
      StrictlyFewerLeft(categories.Keys, doomed, next);
      SubtreeLeast(categories, next, t);
    }
  }

  /** Deleting a category takes its direct subcategories with it. */
  lemma SubtreeHasSubcategories(categories: map<Id, Category>, c: Id)
    requires c in categories
    ensures c in Subtree(categories, {c})
    ensures Subcategories(categories, c) <= Subtree(categories, {c})
  {
  }

  /** After a cascading delete every surviving parent reference still points at
      a stored category. */
  lemma CascadeKeepsParents(categories: map<Id, Category>, doomed: set<Id>)
    requires doomed <= categories.Keys
    requires ParentsExist(categories)
    ensures ParentsExist(categories - Subtree(categories, doomed))
  {
  }
}

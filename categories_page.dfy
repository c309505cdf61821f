/** The categories screen: an in-memory category list with create, rename and
    delete, plus the form state (the category being edited, whether the form is
    shown, whether a submission is in progress). Timestamps are inputs. */
module CategoriesPage {
  import opened Common
  import opened Types
  import CategorySchema

  // ---------------------------------------------------------------------
  // the seeded list

  const Seeded := "2025-01-01T10:00:00Z"

  function Seed(id: int, name: string, count: int): Category
  {
    Category(id, name, Some(count), Seeded, Seeded)
  }

  const InitialCategories: seq<Category> := [
    Seed(1, "Fiction", 2), Seed(2, "Non-Fiction", 0), Seed(3, "Science Fiction", 0),
    Seed(4, "Fantasy", 0), Seed(5, "Mystery", 0), Seed(6, "Romance", 0),
    Seed(7, "Biography", 0), Seed(8, "Self-Help", 1), Seed(9, "History", 1),
    Seed(10, "Technology", 0), Seed(11, "Philosophy", 0), Seed(12, "Poetry", 0),
    Seed(13, "Drama", 0), Seed(14, "Children", 0), Seed(15, "Young Adult", 0),
    Seed(16, "Programming", 5), Seed(17, "Science", 1)
  ]

  predicate UniqueIds(cats: seq<Category>)
  {
    forall i, j :: 0 <= i < j < |cats| ==> cats[i].id != cats[j].id
  }

  function Ids(cats: seq<Category>): (ids: seq<int>)
    ensures |ids| == |cats| && forall i :: 0 <= i < |cats| ==> ids[i] == cats[i].id
  {
    seq(|cats|, i requires 0 <= i < |cats| => cats[i].id)
  }

  /** The seeded list holds 17 categories whose ids are 1 to 17 in order. */
  lemma InitialCategoriesShape()
    ensures |InitialCategories| == 17
    ensures forall i :: 0 <= i < 17 ==> InitialCategories[i].id == i + 1
    ensures UniqueIds(InitialCategories)
  {
  }

  // ---------------------------------------------------------------------
  // fresh ids

  /** The largest element of a non-empty sequence. */
  function Max(ids: seq<int>): (m: int)
    requires ids != []
    ensures m in ids
    ensures forall x :: x in ids ==> x <= m
    decreases |ids|
  {
    if |ids| == 1 then ids[0]
    else
      var rest := Max(ids[1..]);
      assert forall x :: x in ids ==> x == ids[0] || x in ids[1..];
      if ids[0] >= rest then ids[0] else rest
  }

  /** A JavaScript number as far as `Math.max` over integers can produce one. */
  datatype JsNumber = Finite(value: int) | NegInfinity

  /** `Math.max(...ids)`: negative infinity for no arguments. */
  function SpreadMax(ids: seq<int>): JsNumber
  {
    if ids == [] then NegInfinity else Finite(Max(ids))
  }

  function PlusOne(n: JsNumber): JsNumber
  {
    match n
    case Finite(v) => Finite(v + 1)
    case NegInfinity => NegInfinity
  }

  /** The id the page computes for a new category, as written: not a number
      at all on an empty list, otherwise one more than every id. */
  function SpreadMaxPlusOne(cats: seq<Category>): (n: JsNumber)
    ensures n.NegInfinity? <==> cats == []
    ensures n.Finite? ==> forall c :: c in cats ==> c.id < n.value
  {
    var ids := Ids(cats);
    assert forall c :: c in cats ==> c.id in ids by {
      forall c | c in cats ensures c.id in ids {
        var i :| 0 <= i < |cats| && cats[i] == c;
        assert ids[i] == c.id;
      }
    }
    PlusOne(SpreadMax(ids))
  }

  /** As written, creating a category on an emptied list gives it the id
      negative infinity instead of an integer; the corrected `NextId` gives 1. */
  lemma EmptyListGivesNoId()
    ensures SpreadMaxPlusOne([]) == NegInfinity
    ensures NextId([]) == 1
  {
  }

  /** The id given to a new category: one more than the largest id, and 1
      for an empty list. On a non-empty list it is the id the page computes. */
  function NextId(cats: seq<Category>): (id: int)
    ensures forall c :: c in cats ==> c.id < id
    ensures cats != [] ==> SpreadMaxPlusOne(cats) == Finite(id)
    ensures cats == [] ==> id == 1
  {
    if cats == [] then 1 else SpreadMaxPlusOne(cats).value
  }

  // ---------------------------------------------------------------------
  // the list operations

  /** Create: one new category at the end, with a fresh id and no books. */
  function AfterCreate(cats: seq<Category>, name: string, now: string): (r: seq<Category>)
    ensures |r| == |cats| + 1 && r[..|cats|] == cats
    ensures r[|cats|].name == name && r[|cats|].booksCount == Some(0)
    ensures r[|cats|].createdAt == now && r[|cats|].updatedAt == now
    ensures forall c :: c in cats ==> c.id != r[|cats|].id
    ensures UniqueIds(cats) ==> UniqueIds(r)
  {
    cats + [Category(NextId(cats), name, Some(0), now, now)]
  }

  /** Rename: the entries with the edited id get the new name and timestamp. */
  function AfterRename(cats: seq<Category>, id: int, name: string, now: string): (r: seq<Category>)
    ensures |r| == |cats|
    ensures forall i :: 0 <= i < |cats| && cats[i].id == id ==>
              r[i] == cats[i].(name := name, updatedAt := now)
    ensures forall i :: 0 <= i < |cats| && cats[i].id != id ==> r[i] == cats[i]
    ensures Ids(r) == Ids(cats)
  {
    seq(|cats|, i requires 0 <= i < |cats| =>
      if cats[i].id == id then cats[i].(name := name, updatedAt := now) else cats[i])
  }

  /** Delete: the entries with the given id are dropped, the rest keep their order. */
  function AfterDelete(cats: seq<Category>, id: int): (r: seq<Category>)
    ensures |r| <= |cats|
    ensures forall c :: c in r <==> c in cats && c.id != id
  {
    Filter(cats, (c: Category) => c.id != id)
  }

  /** Deleting an id that no category has changes nothing. */
  lemma DeleteAbsentIdIsNoOp(cats: seq<Category>, id: int)
    requires forall c :: c in cats ==> c.id != id
    ensures AfterDelete(cats, id) == cats
  {
    FilterKeepsAll(cats, (c: Category) => c.id != id);
  }

  /** Deleting keeps the order: deleting from a concatenation deletes from each part. */
  lemma DeleteKeepsOrder(a: seq<Category>, b: seq<Category>, id: int)
    ensures AfterDelete(a + b, id) == AfterDelete(a, id) + AfterDelete(b, id)
  {
    FilterConcat(a, b, (c: Category) => c.id != id);
  }

  /** With unique ids, deleting the category at index `k` removes exactly
      that one; the others keep their order. */
  lemma DeleteRemovesOne(cats: seq<Category>, k: nat)
    requires UniqueIds(cats) && k < |cats|
    ensures AfterDelete(cats, cats[k].id) == cats[..k] + cats[k + 1..]
    ensures |AfterDelete(cats, cats[k].id)| == |cats| - 1
  {
    FilterDropsOne(cats, k, (c: Category) => c.id != cats[k].id);
  }

  /** Deleting keeps ids unique. */
  lemma {:induction false} DeleteKeepsUniqueIds(cats: seq<Category>, id: int)
    requires UniqueIds(cats)
    ensures UniqueIds(AfterDelete(cats, id))
    decreases |cats|
  {
    var keep := (c: Category) => c.id != id;
    if cats != [] {
      DeleteKeepsUniqueIds(cats[1..], id);
      var tail := Filter(cats[1..], keep);
      assert AfterDelete(cats[1..], id) == tail;
      assert forall c :: c in tail ==> c in cats[1..];
      assert forall c :: c in cats[1..] ==> c.id != cats[0].id;
    }
  }

  // ---------------------------------------------------------------------
  // the page

  datatype PageState = PageState(
    categories: seq<Category>,
    editingCategory: Option<Category>,
    isSubmitting: bool,
    showForm: bool)

  class Page {
    var categories: seq<Category>
    var editingCategory: Option<Category>
    var isSubmitting: bool
    var showForm: bool

    function State(): PageState
      reads this
    {
      PageState(categories, editingCategory, isSubmitting, showForm)
    }

    predicate Valid()
      reads this
    {
      UniqueIds(categories)
    }

    constructor ()
      ensures Valid()
      ensures State() == PageState(InitialCategories, None, false, false)
    {
      InitialCategoriesShape();
      categories, editingCategory, isSubmitting, showForm := InitialCategories, None, false, false;
    }

    /** The "Add Category" button. */
    method OpenForm()
      modifies this
      ensures State() == old(State()).(showForm := true)
    {
      showForm := true;
    }

    method HandleEdit(c: Category)
      modifies this
      ensures State() == old(State()).(editingCategory := Some(c), showForm := true)
    {
      editingCategory, showForm := Some(c), true;
    }

    method HandleCancel()
      modifies this
      ensures State() == old(State()).(editingCategory := None, showForm := false)
    {
      editingCategory, showForm := None, false;
    }

    method HandleDelete(id: int)
      requires Valid()
      modifies this
      ensures Valid()
      ensures State() == old(State()).(categories := AfterDelete(old(categories), id))
    {
      DeleteKeepsUniqueIds(categories, id);
      categories := Filter(categories, (c: Category) => c.id != id);
    }

    /** A validated submission, once the simulated delay is over: rename the
        edited category or create a new one, then close the form. */
    method OnSubmit(name: string, now: string)
      requires Valid()
      modifies this
      ensures Valid()
      ensures old(editingCategory).Some? ==>
                categories == AfterRename(old(categories), old(editingCategory).value.id, name, now)
      ensures old(editingCategory).None? ==> categories == AfterCreate(old(categories), name, now)
      ensures editingCategory == None && !showForm && !isSubmitting
    {
      isSubmitting := true;
      if editingCategory.Some? {
        var edited := AfterRename(categories, editingCategory.value.id, name, now);
        assert forall i, j :: 0 <= i < j < |edited| ==> edited[i].id == categories[i].id && edited[j].id == categories[j].id;
        categories := edited;
      } else {
        var created := Category(NextId(categories), name, Some(0), now, now);
        categories := categories + [created];
      }
      editingCategory, showForm, isSubmitting := None, false, false;
    }

    /** The form's submit handler: the schema runs first, and only a valid
        name reaches `OnSubmit`. Returns the field error shown, if any. */
    method Submit(name: string, now: string) returns (fieldError: Option<string>)
      requires Valid()
      modifies this
      ensures Valid()
      ensures fieldError == CategorySchema.FirstError(name)
      ensures fieldError.Some? ==> State() == old(State())
      ensures fieldError.None? && old(editingCategory).None? ==>
                categories == AfterCreate(old(categories), name, now)
      ensures fieldError.None? && old(editingCategory).Some? ==>
                categories == AfterRename(old(categories), old(editingCategory).value.id, name, now)
      ensures fieldError.None? ==> editingCategory == None && !showForm && !isSubmitting
    {
      fieldError := CategorySchema.FirstError(name);
      if fieldError.None? {
        OnSubmit(name, now);
      }
    }
  }
}

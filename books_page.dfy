/** The book moderation list: an in-memory book list, a status filter, the
    approve and reject handlers, and the per-status counts on the filter
    buttons. Approve and reject are offered only on pending books. */
module BooksPage {
  import opened Common
  import opened Types

  // ---------------------------------------------------------------------
  // the seeded list

  function Mock(id: int, title: string, author: string, description: string, categoryId: int,
                pages: int, fileType: FileType, filePath: string, status: BookStatus,
                userId: int, downloads: int, date: string): Book
  {
    Book(id, title, author, Some(description), categoryId, pages, fileType, filePath, None,
         status, userId, downloads, date, date, None)
  }

  const MockBooks: seq<Book> := [
    Mock(1, "Learn Flutter Development", "John Doe",
         "A comprehensive guide to building mobile apps with Flutter and Dart.",
         1, 350, Pdf, "/books/flutter.pdf", Approved, 1, 156, "2025-01-10T10:00:00Z"),
    Mock(2, "JavaScript: The Good Parts", "Douglas Crockford",
         "Most programming languages contain good and bad parts, but JavaScript has more than its share.",
         1, 176, Pdf, "/books/js.pdf", Approved, 1, 234, "2025-01-09T10:00:00Z"),
    Mock(3, "The Great Gatsby", "F. Scott Fitzgerald",
         "A story of the mysteriously wealthy Jay Gatsby and his love for Daisy Buchanan.",
         2, 180, Epub, "/books/gatsby.epub", Approved, 1, 89, "2025-01-08T10:00:00Z"),
    Mock(4, "A Brief History of Time", "Stephen Hawking",
         "A landmark volume in science writing by one of the great minds of our time.",
         3, 256, Pdf, "/books/time.pdf", Approved, 1, 312, "2025-01-07T10:00:00Z"),
    Mock(5, "Sapiens: A Brief History of Humankind", "Yuval Noah Harari",
         "A groundbreaking narrative of humanity creation and evolution.",
         4, 443, Pdf, "/books/sapiens.pdf", Approved, 1, 278, "2025-01-06T10:00:00Z"),
    Mock(6, "Atomic Habits", "James Clear",
         "An easy and proven way to build good habits and break bad ones.",
         5, 320, Pdf, "/books/habits.pdf", Approved, 1, 445, "2025-01-05T10:00:00Z"),
    Mock(7, "Clean Code", "Robert C. Martin",
         "A handbook of agile software craftsmanship.",
         1, 464, Pdf, "/books/clean.pdf", Approved, 1, 523, "2025-01-04T10:00:00Z"),
    Mock(8, "The Pragmatic Programmer", "David Thomas & Andrew Hunt",
         "Your journey to mastery in software development.",
         1, 352, Pdf, "/books/pragmatic.pdf", Approved, 1, 387, "2025-01-03T10:00:00Z"),
    Mock(9, "React Design Patterns", "Michael Johnson",
         "Modern patterns for building scalable React applications.",
         1, 280, Pdf, "/books/react.pdf", Pending, 2, 0, "2025-01-12T10:00:00Z"),
    Mock(10, "Low Quality Book", "Unknown Author",
         "This book was rejected due to quality issues.",
         2, 50, Pdf, "/books/rejected.pdf", Rejected, 3, 0, "2025-01-11T10:00:00Z")
  ]

  predicate UniqueIds(books: seq<Book>)
  {
    forall i, j :: 0 <= i < j < |books| ==> books[i].id != books[j].id
  }

  // ---------------------------------------------------------------------
  // filtering and counting

  /** The filter buttons: "all" or one status. */
  datatype StatusFilter = AllBooks | OnlyStatus(status: BookStatus)

  function HasStatus(s: BookStatus): Book -> bool
  {
    (b: Book) => b.status == s
  }

  /** The books the table shows. */
  function Visible(books: seq<Book>, f: StatusFilter): (r: seq<Book>)
    ensures f == AllBooks ==> r == books
    ensures f.OnlyStatus? ==> forall b :: b in r <==> b in books && b.status == f.status
    ensures f.OnlyStatus? ==> |r| == CountStatus(books, f.status)
  {
    match f
    case AllBooks => books
    case OnlyStatus(s) => Filter(books, HasStatus(s))
  }

  /** The count on a status button: taken over the whole list, whatever the filter. */
  function CountStatus(books: seq<Book>, s: BookStatus): (n: nat)
    ensures n <= |books|
  {
    Count(books, HasStatus(s))
  }

  /** Every book has one of the three statuses, so the counts add up to the list. */
  lemma {:induction false} CountsAddUp(books: seq<Book>)
    ensures CountStatus(books, Pending) + CountStatus(books, Approved) + CountStatus(books, Rejected) == |books|
    decreases |books|
  {
    if books != [] {
      CountCons(books, HasStatus(Pending));
      CountCons(books, HasStatus(Approved));
      CountCons(books, HasStatus(Rejected));
      CountsAddUp(books[1..]);
    }
  }

  // ---------------------------------------------------------------------
  // moderation

  /** Give every book with the id the new status; nothing else changes. */
  function WithStatus(books: seq<Book>, id: int, s: BookStatus): (r: seq<Book>)
    ensures |r| == |books|
    ensures forall i :: 0 <= i < |books| && books[i].id == id ==> r[i] == books[i].(status := s)
    ensures forall i :: 0 <= i < |books| && books[i].id != id ==> r[i] == books[i]
  {
    seq(|books|, i requires 0 <= i < |books| => if books[i].id == id then books[i].(status := s) else books[i])
  }

  function AfterApprove(books: seq<Book>, id: int): (r: seq<Book>)
    ensures |r| == |books|
    ensures forall i :: 0 <= i < |books| ==> r[i].id == books[i].id
  {
    WithStatus(books, id, Approved)
  }

  function AfterReject(books: seq<Book>, id: int): (r: seq<Book>)
    ensures |r| == |books|
    ensures forall i :: 0 <= i < |books| ==> r[i].id == books[i].id
  {
    WithStatus(books, id, Rejected)
  }

  /** Approve and Reject are offered only for pending books. */
  predicate ActionsOffered(b: Book)
  {
    b.status == Pending
  }

  /** The entries of a row's action menu. */
  datatype RowAction = ViewDetails | ApproveAction | RejectAction

  /** "View details" always; Approve and Reject exactly for a pending book. */
  function RowActions(b: Book): (items: seq<RowAction>)
    ensures |items| >= 1 && items[0] == ViewDetails
    ensures ApproveAction in items <==> ActionsOffered(b)
    ensures RejectAction in items <==> ActionsOffered(b)
  {
    if b.status == Pending then [ViewDetails, ApproveAction, RejectAction] else [ViewDetails]
  }

  /** The handlers themselves do not check the status: given the id of a book
      that is not pending, they still set its status. Only the menu guards them. */
  lemma HandlersIgnoreTheGuard(books: seq<Book>, k: nat, s: BookStatus)
    requires k < |books| && !ActionsOffered(books[k])
    ensures WithStatus(books, books[k].id, s)[k] == books[k].(status := s)
    ensures s != books[k].status ==> WithStatus(books, books[k].id, s) != books
  {
    var r := WithStatus(books, books[k].id, s);
    if s != books[k].status {
      assert r[k].status != books[k].status;
    }
  }

  lemma ModerationIsIdempotent(books: seq<Book>, id: int, s: BookStatus)
    ensures WithStatus(WithStatus(books, id, s), id, s) == WithStatus(books, id, s)
  {
  }

  /** With unique ids, moderating the book at index `k` replaces that one entry. */
  lemma WithStatusAtIndex(books: seq<Book>, k: nat, s: BookStatus)
    requires UniqueIds(books) && k < |books|
    ensures WithStatus(books, books[k].id, s) == books[k := books[k].(status := s)]
  {
  }

  /** Moderating one pending book moves exactly one unit from the pending
      count to the target status's count; the third count is unchanged. */
  lemma ModerationMovesOne(books: seq<Book>, k: nat, s: BookStatus)
    requires UniqueIds(books) && k < |books| && ActionsOffered(books[k]) && s != Pending
    ensures CountStatus(WithStatus(books, books[k].id, s), Pending) == CountStatus(books, Pending) - 1
    ensures CountStatus(WithStatus(books, books[k].id, s), s) == CountStatus(books, s) + 1
    ensures forall t :: t != Pending && t != s ==>
              CountStatus(WithStatus(books, books[k].id, s), t) == CountStatus(books, t)
  {
    WithStatusAtIndex(books, k, s);
    var x := books[k].(status := s);
    CountUpdate(books, k, x, HasStatus(Pending));
    CountUpdate(books, k, x, HasStatus(s));
    forall t | t != Pending && t != s
      ensures CountStatus(WithStatus(books, books[k].id, s), t) == CountStatus(books, t)
    {
      CountUpdate(books, k, x, HasStatus(t));
    }
  }

  /** The seeded list: ten books with ids 1 to 10; book 9 ("React Design
      Patterns") is pending, book 10 is rejected, the first eight are approved. */
  lemma MockBooksShape()
    ensures |MockBooks| == 10
    ensures forall i :: 0 <= i < 10 ==> MockBooks[i].id == i + 1
    ensures UniqueIds(MockBooks)
    ensures forall i :: 0 <= i < 8 ==> MockBooks[i].status == Approved
    ensures MockBooks[8].title == "React Design Patterns" && MockBooks[8].status == Pending
    ensures MockBooks[9].status == Rejected
  {
  }

  /** Counting a list whose first eight books are approved and whose last two
      are one pending and one rejected book. */
  lemma CountsOfSeededShape(books: seq<Book>)
    requires |books| == 10 && forall i :: 0 <= i < 8 ==> books[i].status == Approved
    requires books[8].status == Pending && books[9].status == Rejected
    ensures CountStatus(books, Pending) == 1
    ensures CountStatus(books, Approved) == 8
    ensures CountStatus(books, Rejected) == 1
  {
    var approved, rest := books[..8], books[8..];
    assert books == approved + rest;
    AllApprovedCounts(approved);
    PendingThenRejectedCounts(rest);
    CountConcat(approved, rest, HasStatus(Approved));
    CountConcat(approved, rest, HasStatus(Pending));
    CountConcat(approved, rest, HasStatus(Rejected));
  }

  /** A list of approved books counts them all as approved and none otherwise. */
  lemma AllApprovedCounts(books: seq<Book>)
    requires forall i :: 0 <= i < |books| ==> books[i].status == Approved
    ensures CountStatus(books, Approved) == |books|
    ensures CountStatus(books, Pending) == 0 && CountStatus(books, Rejected) == 0
  {
    assert forall b :: b in books ==> b.status == Approved;
    FilterKeepsAll(books, HasStatus(Approved));
    CountsAddUp(books);
  }

  /** One pending book followed by one rejected book. */
  lemma PendingThenRejectedCounts(books: seq<Book>)
    requires |books| == 2 && books[0].status == Pending && books[1].status == Rejected
    ensures CountStatus(books, Pending) == 1 && CountStatus(books, Rejected) == 1
    ensures CountStatus(books, Approved) == 0
  {
    CountsAddUp(books);
    CountCons(books, HasStatus(Pending));
    CountCons(books, HasStatus(Rejected));
    CountCons(books[1..], HasStatus(Pending));
    CountCons(books[1..], HasStatus(Rejected));
  }

  /** Hence the seeded counts: 1 pending, 8 approved, 1 rejected. */
  lemma MockBooksCounts()
    ensures CountStatus(MockBooks, Pending) == 1
    ensures CountStatus(MockBooks, Approved) == 8
    ensures CountStatus(MockBooks, Rejected) == 1
  {
    MockBooksShape();
    CountsOfSeededShape(MockBooks);
  }

  // ---------------------------------------------------------------------
  // the page

  class Page {
    var statusFilter: StatusFilter
    var books: seq<Book>

    constructor ()
      ensures statusFilter == AllBooks && books == MockBooks
    {
      statusFilter, books := AllBooks, MockBooks;
    }

    /** The table's rows under the current filter. */
    function FilteredBooks(): (r: seq<Book>)
      reads this
      ensures statusFilter == AllBooks ==> r == books
      ensures statusFilter.OnlyStatus? ==> forall b :: b in r <==> b in books && b.status == statusFilter.status
    {
      Visible(books, statusFilter)
    }

    /** The count on a status button: the whole list, whatever the filter. */
    function StatusCount(s: BookStatus): (n: nat)
      reads this
      ensures n <= |books|
      ensures statusFilter == OnlyStatus(s) ==> n == |FilteredBooks()|
    {
      CountStatus(books, s)
    }

    method SetStatusFilter(f: StatusFilter)
      modifies this
      ensures statusFilter == f && books == old(books)
    {
      statusFilter := f;
    }

    method HandleApprove(id: int)
      modifies this
      ensures books == AfterApprove(old(books), id) && statusFilter == old(statusFilter)
    {
      books := WithStatus(books, id, Approved);
    }

    method HandleReject(id: int)
      modifies this
      ensures books == AfterReject(old(books), id) && statusFilter == old(statusFilter)
    {
      books := WithStatus(books, id, Rejected);
    }
  }
}

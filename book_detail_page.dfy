/** The book detail screen: which view is shown (loading, not found, details),
    the moderation panel, and the approve/reject handlers with their
    `isUpdating` flag. The fetched book and the request answers are inputs;
    a handler issues its request when it starts and reacts to the answer when
    it settles. */
module BookDetailPage {
  import opened Common
  import opened Types
  import opened ApiConfig
  import BooksService

  /** The cache key for the detail fetch: none, and so no fetch, without a route id. */
  function FetchKey(routeId: Option<int>): (key: Option<string>)
    ensures key.None? <==> routeId.None?
    ensures routeId.Some? ==> key == Some(BookDetail(routeId.value))
  {
    match routeId
    case None => None
    case Some(id) => Some(BookDetail(id))
  }

  datatype Moderation = Approve | Reject

  /** The request a handler issues: none without a loaded book, otherwise a
      body-less POST to the book's approve or reject path. */
  function HandlerRequest(book: Option<Book>, action: Moderation): (req: Option<Request>)
    ensures req.None? <==> book.None?
    ensures book.Some? ==> req.value.httpMethod == Post && req.value.body.None? && req.value.query == []
    ensures book.Some? && action == Approve ==> req.value.path == BookDetail(book.value.id) + "/approve"
    ensures book.Some? && action == Reject ==> req.value.path == BookDetail(book.value.id) + "/reject"
  {
    match book
    case None => None
    case Some(b) =>
      var path := if action == Approve then BookApprove(b.id) else BookReject(b.id);
      Some(Request(Post, path, [], None))
  }

  /** The page and the books service moderate through the same paths but
      with different methods: the page posts, the service puts. */
  lemma PageAndServiceDifferInMethod(b: Book)
    ensures HandlerRequest(Some(b), Approve).value.path == BooksService.ApproveBookRequest(b.id).path
    ensures HandlerRequest(Some(b), Reject).value.path == BooksService.RejectBookRequest(b.id, None).path
    ensures HandlerRequest(Some(b), Approve).value.httpMethod == Post
    ensures BooksService.ApproveBookRequest(b.id).httpMethod == Put
    ensures BooksService.RejectBookRequest(b.id, None).httpMethod == Put
  {
  }

  /** The console message for a failed moderation request. */
  function FailureLog(action: Moderation): (m: string)
    ensures action == Approve ==> m == "Failed to approve book:"
    ensures action == Reject ==> m == "Failed to reject book:"
  {
    if action == Approve then "Failed to approve book:" else "Failed to reject book:"
  }

  /** The actions card: the two buttons for a pending book, otherwise a note. */
  datatype Panel = ModerationButtons(disabled: bool) | AlreadyModerated(note: string)

  datatype View = LoadingView | NotFoundView | DetailsView(book: Book, panel: Panel)

  function PanelFor(book: Book, isUpdating: bool): (p: Panel)
    ensures p.ModerationButtons? <==> book.status == Pending
    ensures p.ModerationButtons? ==> p.disabled == isUpdating
    ensures p.AlreadyModerated? ==> p.note == "This book has already been " + StatusName(book.status) + "."
  {
    if book.status == Pending then ModerationButtons(isUpdating)
    else AlreadyModerated("This book has already been " + StatusName(book.status) + ".")
  }

  /** Loading wins; then an error or a missing book means "Book not found";
      otherwise the details. */
  function SelectView(isLoading: bool, hasError: bool, book: Option<Book>, isUpdating: bool): (v: View)
    ensures isLoading ==> v == LoadingView
    ensures !isLoading && (hasError || book.None?) ==> v == NotFoundView
    ensures v.DetailsView? <==> !isLoading && !hasError && book.Some?
    ensures v.DetailsView? ==> v.book == book.value && v.panel == PanelFor(book.value, isUpdating)
  {
    if isLoading then LoadingView
    else if hasError || book.None? then NotFoundView
    else DetailsView(book.value, PanelFor(book.value, isUpdating))
  }

  class Page {
    const routeId: Option<int>
    var book: Option<Book>
    var isLoading: bool
    var hasError: bool
    var isUpdating: bool
    /** How many times the cached detail was revalidated after a mutation. */
    var revalidations: nat
    /** Messages written to the console. */
    var logged: seq<string>

    constructor (routeId: Option<int>)
      ensures this.routeId == routeId && book == None && !isUpdating && revalidations == 0 && logged == []
      ensures isLoading == routeId.Some? && !hasError
    {
      this.routeId := routeId;
      book, isLoading, hasError := None, routeId.Some?, false;
      isUpdating, revalidations, logged := false, 0, [];
    }

    /** The detail fetch settles with a book or with an error. */
    method FetchSettled(answer: Option<Book>)
      modifies this
      ensures !isLoading && book == answer && hasError == answer.None?
      ensures isUpdating == old(isUpdating) && revalidations == old(revalidations) && logged == old(logged)
    {
      isLoading, book, hasError := false, answer, answer.None?;
    }

    /** The view on screen: loading first, then "not found", then the details
        with the moderation panel for the current book. */
    function CurrentView(): (v: View)
      reads this
      ensures isLoading ==> v == LoadingView
      ensures !isLoading && (hasError || book.None?) ==> v == NotFoundView
      ensures v.DetailsView? <==> !isLoading && !hasError && book.Some?
      ensures v.DetailsView? ==> v.book == book.value && (v.panel.ModerationButtons? <==> book.value.status == Pending)
      ensures v.DetailsView? && v.panel.ModerationButtons? ==> v.panel.disabled == isUpdating
    {
      SelectView(isLoading, hasError, book, isUpdating)
    }

    /** A click on Approve or Reject: without a book nothing happens; with one
        the request goes out and the page is updating until it settles. */
    method StartModeration(action: Moderation) returns (req: Option<Request>)
      modifies this
      ensures req == HandlerRequest(old(book), action)
      ensures req.None? ==> isUpdating == old(isUpdating)
      ensures req.Some? ==> isUpdating
      ensures book == old(book) && revalidations == old(revalidations) && logged == old(logged)
      ensures isLoading == old(isLoading) && hasError == old(hasError)
    {
      req := HandlerRequest(book, action);
      if req.Some? {
        isUpdating := true;
      }
    }

    /** The moderation request settles: success revalidates the detail,
        failure is only logged; either way the page stops updating. */
    method ModerationSettled(action: Moderation, succeeded: bool)
      modifies this
      ensures !isUpdating && book == old(book)
      ensures succeeded ==> revalidations == old(revalidations) + 1 && logged == old(logged)
      ensures !succeeded ==> revalidations == old(revalidations)
      ensures !succeeded ==> logged == old(logged) + [FailureLog(action)]
      ensures isLoading == old(isLoading) && hasError == old(hasError)
    {
      if succeeded {
        revalidations := revalidations + 1;
      } else {
        logged := logged + [FailureLog(action)];
      }
      isUpdating := false;
    }
  }
}

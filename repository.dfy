/** The book record and what the book repository hands to the metrics
    engine.  Fetching over HTTP and decoding JSON are not modelled: one call
    of `GetBooks` is represented by its outcome, either the decoded list or
    the error it failed with.  The shapes of the errors the HTTP repository
    builds are kept, so that what the handler does with them can be stated. */
module Repository {
  import opened Errors

  const TWO_63: int := 0x8000_0000_0000_0000
  const TWO_64: int := 0x1_0000_0000_0000_0000

  /** Go's `uint` on a 64-bit platform. */
  type U64 = x: int | 0 <= x < 0x1_0000_0000_0000_0000

  /** models.Book: `ID int`, `Name`, `Author`, `UnitsSold uint`, `Price uint`. */
  datatype Book = Book(id: int, name: string, author: string, unitsSold: U64, price: U64)

  /** The two results of `BookRepository.GetBooks`: a list, which may be
      empty, or a non-nil error. */
  datatype FetchResult = Fetched(books: seq<Book>) | FetchFailed(cause: Error)

  /** An error that the repository's own code did not create: every
      sentinel in it comes from net/http, encoding/json or the like. */
  predicate ForeignOnly(e: Error) {
    match e
    case Leaf(s) => s.Foreign?
    case Pair(a, b) => ForeignOnly(a) && ForeignOnly(b)
    case WithStatus(a, _) => ForeignOnly(a)
  }

  /** The errors `HTTPBookRepository.GetBooks` returns: a repository
      sentinel wrapped around the failure underneath, or the unexpected-status
      sentinel followed by the status code that was not 200. */
  predicate IsRepositoryError(e: Error) {
    match e
    case Pair(Leaf(k), inner) =>
      (k == CreatingRequest || k == ExecutingRequest || k == DecodingResponse) && ForeignOnly(inner)
    case WithStatus(Leaf(k), code) => k == UnexpectedStatus && code != 200
    case _ => false
  }

  lemma {:induction false} ForeignOnlyMatchesNoOwnSentinel(e: Error, target: Sentinel)
    requires ForeignOnly(e) && !target.Foreign?
    ensures !Is(e, target)
  {
    match e
    case Leaf(_) =>
    case Pair(a, b) =>
      ForeignOnlyMatchesNoOwnSentinel(a, target);
      ForeignOnlyMatchesNoOwnSentinel(b, target);
    case WithStatus(a, _) =>
      ForeignOnlyMatchesNoOwnSentinel(a, target);
  }

  /** A repository error matches exactly one of the repository's
      sentinels, and none of the metrics engine's. */
  lemma RepositoryErrorKind(e: Error)
    requires IsRepositoryError(e)
    ensures var kind := if e.Pair? then e.first.sentinel else UnexpectedStatus;
            (kind == CreatingRequest || kind == ExecutingRequest || kind == UnexpectedStatus || kind == DecodingResponse) &&
            forall s: Sentinel :: !s.Foreign? ==> (Is(e, s) <==> s == kind)
    ensures !Is(e, NoBooksFound) && !Is(e, AuthorNotFound) && !Is(e, FetchingBooks)
    ensures Is(e, CreatingRequest) || Is(e, ExecutingRequest) || Is(e, UnexpectedStatus) || Is(e, DecodingResponse)
    ensures e.WithStatus? <==> Is(e, UnexpectedStatus)
  {
    if e.Pair? {
      forall s: Sentinel | !s.Foreign?
        ensures !Is(e.second, s)
      {
        ForeignOnlyMatchesNoOwnSentinel(e.second, s);
      }
    }
  }
}

/** The error classifier of the HTTP handler (handler/errors.go): the first
    sentinel found, in a fixed order, decides the status; matching is
    structural (`errors.Is`), never by message text. */
module Status {
  import opened Errors
  import opened Repository
  import Metrics

  const StatusOK := 200
  const StatusNotFound := 404
  const StatusInternalServerError := 500
  const StatusBadGateway := 502

  /** mapErrorToHTTPStatus: no-books, then author-not-found (both 404), then
      fetching-books (502), otherwise 500. */
  function MapErrorToHTTPStatus(err: Error): (status: int)
    ensures status in {StatusNotFound, StatusBadGateway, StatusInternalServerError}
  {
    if Is(err, NoBooksFound) then StatusNotFound
    else if Is(err, AuthorNotFound) then StatusNotFound
    else if Is(err, FetchingBooks) then StatusBadGateway
    else StatusInternalServerError
  }

  /** Which errors get which status, each case stated in both directions. */
  lemma StatusClasses(err: Error)
    ensures MapErrorToHTTPStatus(err) == StatusNotFound <==>
              Is(err, NoBooksFound) || Is(err, AuthorNotFound)
    ensures MapErrorToHTTPStatus(err) == StatusBadGateway <==>
              !Is(err, NoBooksFound) && !Is(err, AuthorNotFound) && Is(err, FetchingBooks)
    ensures MapErrorToHTTPStatus(err) == StatusInternalServerError <==>
              !Is(err, NoBooksFound) && !Is(err, AuthorNotFound) && !Is(err, FetchingBooks)
  {
  }

  /** An error is never reported as success. */
  lemma NeverOK(err: Error)
    ensures MapErrorToHTTPStatus(err) != StatusOK
  {
  }

  /** The status depends only on which sentinels the error wraps: two errors
      whose chains hold the same sentinels, in any order and whatever their
      messages, get the same status. */
  lemma StatusIsStructural(e1: Error, e2: Error)
    requires forall s :: s in Chain(e1) <==> s in Chain(e2)
    ensures MapErrorToHTTPStatus(e1) == MapErrorToHTTPStatus(e2)
  {
    IsIffInChain(e1, NoBooksFound);
    IsIffInChain(e2, NoBooksFound);
    IsIffInChain(e1, AuthorNotFound);
    IsIffInChain(e2, AuthorNotFound);
    IsIffInChain(e1, FetchingBooks);
    IsIffInChain(e2, FetchingBooks);
  }

  /** A wrapped fetch failure is a bad gateway, unless what it wraps already
      carries a 404 sentinel: the first matching case wins. */
  lemma FetchErrorStatus(cause: Error)
    ensures MapErrorToHTTPStatus(Metrics.FetchError(cause)) ==
              if Is(cause, NoBooksFound) || Is(cause, AuthorNotFound) then StatusNotFound
              else StatusBadGateway
  {
  }

  /** Every failure the HTTP repository reports, once the engine wraps it,
      is a 502. */
  lemma RepositoryFailureIsBadGateway(cause: Error)
    requires IsRepositoryError(cause) || ForeignOnly(cause)
    ensures MapErrorToHTTPStatus(Metrics.FetchError(cause)) == StatusBadGateway
  {
    if IsRepositoryError(cause) {
      RepositoryErrorKind(cause);
    } else {
      ForeignOnlyMatchesNoOwnSentinel(cause, NoBooksFound);
      ForeignOnlyMatchesNoOwnSentinel(cause, AuthorNotFound);
    }
    FetchErrorStatus(cause);
  }

  /** An error matching both a 404 sentinel and the fetching-books sentinel
      is a 404, not a 502: the first matching case wins. */
  lemma FirstMatchWins(err: Error)
    requires Is(err, FetchingBooks) && (Is(err, NoBooksFound) || Is(err, AuthorNotFound))
    ensures MapErrorToHTTPStatus(err) == StatusNotFound
  {
  }
}

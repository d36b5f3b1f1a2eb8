/** The HTTP handler (handler/metrics.go).  Each endpoint calls the metrics
    engine and writes one JSON response: on an error, the mapped status and
    an object whose only key is "error"; on success, 200 and the value under
    a fixed key (the book record itself for the cheapest book).  Writing to
    the gin context is modelled as returning the response. */
module Handler {
  import opened Errors
  import opened Repository
  import opened Status
  import Metrics

  datatype Json = JString(str: string) | JNumber(num: int)

  /** A JSON object, as gin.H or a serialised struct. */
  type Body = map<string, Json>

  datatype Response = Response(status: int, body: Body)

  const ErrorKey := "error"

  /** ctx.JSON(mapErrorToHTTPStatus(err), gin.H{errorKey: err.Error()}) */
  function ErrorResponse(err: Error): (r: Response)
    ensures r.status == MapErrorToHTTPStatus(err) && r.status != StatusOK
    ensures r.body.Keys == {ErrorKey} && r.body[ErrorKey] == JString(Message(err))
  {
    Response(MapErrorToHTTPStatus(err), map[ErrorKey := JString(Message(err))])
  }

  /** models.Book serialised under its JSON field names. */
  function BookJson(b: Book): (body: Body)
    ensures body.Keys == {"id", "name", "author", "units_sold", "price"}
    ensures body["name"] == JString(b.name) && body["price"] == JNumber(b.price)
  {
    map["id" := JNumber(b.id), "name" := JString(b.name), "author" := JString(b.author),
        "units_sold" := JNumber(b.unitsSold), "price" := JNumber(b.price)]
  }

  /** Response selection of GetMeanUnitsSold, for whatever the engine
      returned. */
  function MeanResponse(mean: U64, err: Option<Error>): (r: Response)
    ensures r.status == StatusOK <==> err.None?
    ensures err.Some? ==> r == ErrorResponse(err.value)
    ensures err.None? ==> r.body.Keys == {"mean_units_sold"} && r.body["mean_units_sold"] == JNumber(mean)
  {
    match err
    case Some(e) => ErrorResponse(e)
    case None => Response(StatusOK, map["mean_units_sold" := JNumber(mean)])
  }

  /** Response selection of GetCheapestBook. */
  function CheapestResponse(book: Book, err: Option<Error>): (r: Response)
    ensures r.status == StatusOK <==> err.None?
    ensures err.Some? ==> r == ErrorResponse(err.value)
    ensures err.None? ==> r.body == BookJson(book)
  {
    match err
    case Some(e) => ErrorResponse(e)
    case None => Response(StatusOK, BookJson(book))
  }

  /** Response selection of GetBooksCountByAuthor. */
  function CountResponse(count: U64, err: Option<Error>): (r: Response)
    ensures r.status == StatusOK <==> err.None?
    ensures err.Some? ==> r == ErrorResponse(err.value)
    ensures err.None? ==> r.body.Keys == {"count"} && r.body["count"] == JNumber(count)
  {
    match err
    case Some(e) => ErrorResponse(e)
    case None => Response(StatusOK, map["count" := JNumber(count)])
  }

  /** GET /books/mean-units-sold served by the metrics engine over one
      repository result. */
  method GetMeanUnitsSold(fetched: FetchResult) returns (r: Response)
    ensures fetched.FetchFailed? ==> r == ErrorResponse(Metrics.FetchError(fetched.cause))
    ensures fetched.FetchFailed? && IsRepositoryError(fetched.cause) ==> r.status == StatusBadGateway
    ensures fetched == Fetched([]) ==>
              r == Response(StatusNotFound, map[ErrorKey := JString("no books found")])
    ensures fetched.Fetched? && fetched.books != [] ==>
              r == Response(StatusOK, map["mean_units_sold" := JNumber(Metrics.MeanOf(fetched.books))])
  {
    var mean, err := Metrics.GetMeanUnitsSold(fetched);
    if fetched.FetchFailed? && IsRepositoryError(fetched.cause) {
      RepositoryFailureIsBadGateway(fetched.cause);
    }
    r := MeanResponse(mean, err);
  }

  /** GET /books/cheapest. */
  method GetCheapestBook(fetched: FetchResult) returns (r: Response)
    ensures fetched.FetchFailed? ==> r == ErrorResponse(Metrics.FetchError(fetched.cause))
    ensures fetched.FetchFailed? && IsRepositoryError(fetched.cause) ==> r.status == StatusBadGateway
    ensures fetched == Fetched([]) ==>
              r == Response(StatusNotFound, map[ErrorKey := JString("no books found")])
    ensures fetched.Fetched? && fetched.books != [] ==>
              r == Response(StatusOK, BookJson(Metrics.CheapestBook(fetched.books)))
  {
    var book, err := Metrics.GetCheapestBook(fetched);
    if fetched.FetchFailed? && IsRepositoryError(fetched.cause) {
      RepositoryFailureIsBadGateway(fetched.cause);
    }
    r := CheapestResponse(book, err);
  }

  /** GET /books/count-by-author/{author}: the path parameter reaches the
      engine as it is. */
  method GetBooksCountByAuthor(fetched: FetchResult, authorParam: string) returns (r: Response)
    ensures fetched.FetchFailed? ==> r == ErrorResponse(Metrics.FetchError(fetched.cause))
    ensures fetched.FetchFailed? && IsRepositoryError(fetched.cause) ==> r.status == StatusBadGateway
    ensures fetched == Fetched([]) ==>
              r == Response(StatusNotFound, map[ErrorKey := JString("no books found")])
    ensures fetched.Fetched? && fetched.books != [] ==>
              var n := Metrics.CountByAuthor(fetched.books, authorParam) % TWO_64;
              r == if n == 0 then Response(StatusNotFound, map[ErrorKey := JString("author not found")])
                   else Response(StatusOK, map["count" := JNumber(n)])
  {
    var count, err := Metrics.GetBooksCountByAuthor(fetched, authorParam);
    if fetched.FetchFailed? && IsRepositoryError(fetched.cause) {
      RepositoryFailureIsBadGateway(fetched.cause);
    }
    r := CountResponse(count, err);
  }

  /** The ten handler tests, on the selection functions: the engine
      stands in for whatever service the handler was built with. */
  lemma HandlerTestScenarios()
    // mean units sold: success, no books, fetching error
    ensures MeanResponse(53750000, None) == Response(200, map["mean_units_sold" := JNumber(53750000)])
    ensures MeanResponse(0, Some(Leaf(NoBooksFound))).status == 404
    ensures MeanResponse(0, Some(Leaf(FetchingBooks))).status == 502
    // cheapest book: success, no books, fetching error
    ensures var r := CheapestResponse(Book(0, "The Lion, the Witch and the Wardrobe", "", 0, 15), None);
            r.status == 200 && r.body["name"] == JString("The Lion, the Witch and the Wardrobe") &&
            r.body["price"] == JNumber(15)
    ensures CheapestResponse(Metrics.NoBook, Some(Leaf(NoBooksFound))).status == 404
    ensures CheapestResponse(Metrics.NoBook, Some(Leaf(FetchingBooks))).status == 502
    // count by author: success, author not found, no books, fetching error
    ensures CountResponse(3, None) == Response(200, map["count" := JNumber(3)])
    ensures CountResponse(0, Some(Leaf(AuthorNotFound))).status == 404
    ensures CountResponse(0, Some(Leaf(NoBooksFound))).status == 404
    ensures CountResponse(0, Some(Leaf(FetchingBooks))).status == 502
  {
  }
}

# Bookshop metrics, modelled in Dafny

A small read-only HTTP API over a remote book catalogue. Every request fetches
the whole book list from an upstream service. It then answers with one of
three metrics: the mean number of units sold, the cheapest book, or the number
of books by one author. Failures become HTTP statuses: 404 when there are no
books or the author has none, 502 when the upstream fetch failed, and 500 for
anything else.

The model has five modules:

- `Errors` (`errors.dfy`) covers Go error values as the program builds and
  inspects them. Sentinels come from `errors.New`, and wrapping errors come
  from `fmt.Errorf` with `%w`. `Is` is the structural tree walk of
  `errors.Is`, and `Message` is `err.Error()`.
- `Repository` (`repository.dfy`) holds the `Book` record, with Go's 64-bit
  `uint` as `U64`. It also holds the result of one `GetBooks` call (a list,
  possibly empty, or an error) and the shapes of the errors the HTTP
  repository returns.
- `Metrics` (`metrics.dfy`) is the metrics engine. The two accumulating
  loops are methods proved against specification functions. The cheapest
  book is a pure function that follows the loop of `slices.MinFunc`. The
  three service operations decide in the source's order: fetch error, then
  empty list, then author not found. The 64-bit wrap-around of the sum and of
  the price comparator is written out.
- `Status` (`status.dfy`) is the error classifier `mapErrorToHTTPStatus`.
- `Handler` (`handler.dfy`) chooses each endpoint's response from the
  engine's result, and composes each endpoint with the engine.

The author-not-found error is the bare sentinel: it does not name the author.
The sum of units sold is a wrapping `uint`, not an unbounded integer.

Some members define what the rest is stated in terms of and carry no
contract of their own:

- `Errors.Sentinel.Text` gives the `errors.New` texts of service/errors.go:6-8
  and repository/errors.go:6-9.
- `Errors.Is` is `errors.Is` as used at handler/errors.go:12-16 and in the
  tests.
- `Errors.Message` is `err.Error()`: the text of handler/metrics.go:31 and
  of the `fmt.Errorf` calls at service/metrics.go:31 and
  repository/http_book.go:25-40.
- `Repository.IsRepositoryError` gives the four error shapes built at
  repository/http_book.go:25, 30, 35 and 40.
- `Metrics.NoBook` is the `models.Book{}` returned with an error at
  service/metrics.go:42 and 45.
- `Metrics.SumUnits` and `Metrics.Authors` are the exact sum and the author
  list that the metrics are specified against.

## Model

| member | source | states |
|---|---|---|
| `Errors.IsIffInChain` | handler/errors.go:11-17 | `errors.Is` matches a sentinel exactly when the sentinel appears among the errors reachable by unwrapping |
| `Errors.IsIgnoresText` | handler/errors.go:12-16 | a foreign error whose message is "fetching books" has the same text as the fetching-books sentinel but does not match it: matching is by identity, not text |
| `Errors.Decimal` | repository/http_book.go:35 | the `%d` rendering of a status code is a non-empty string of decimal digits, one digit exactly for numbers below 10, with no leading zero |
| `Errors.DecimalValue` | repository/http_book.go:35 | the digits of the `%d` rendering of `n` stand for `n` |
| `Repository.ForeignOnlyMatchesNoOwnSentinel` | repository/http_book.go:25-40 | an error made only of errors from outside the repository (net/http, encoding/json) matches none of the repository's or the engine's sentinels |
| `Repository.RepositoryErrorKind` | repository/http_book.go:22-44 | every error the HTTP repository returns matches exactly one of its own sentinels and no other sentinel of the program (so none of the engine's), and matches the unexpected-status sentinel exactly when it carries a status code |
| `Metrics.FetchError` | service/metrics.go:31 | the wrapped fetch error matches the fetching-books sentinel and exactly the sentinels the cause matches, and its message is "fetching books: " followed by the cause's message |
| `Metrics.MeanOf` | service/metrics.go:65-71 | when the sum fits in 64 bits, the mean is the floor of the average: `mean * n <= sum < (mean + 1) * n` |
| `Metrics.MeanUnitsSold` | service/metrics.go:65-71 | the accumulating loop over a non-empty list, with the sum wrapping modulo 2^64, returns `MeanOf(books)` |
| `Metrics.MeanStep` | service/metrics.go:70 | `sum / uint(len(books))` rounds down: `mean * n <= sum < (mean + 1) * n`, and never exceeds the sum |
| `Metrics.MeanWithinRange` | service/metrics.go:65-71 | without overflow, the mean lies between any lower and any upper bound of the units sold |
| `Metrics.MeanWrapsOnOverflow` | service/metrics.go:66-68 | with units sold 2^64 - 1 and 1 the true sum is 2^64 and the returned mean is 0 |
| `Metrics.SubU64` | service/metrics.go:75 | `a.Price - b.Price` on uints is the true difference when it is not negative, and the difference plus 2^64 when it is |
| `Metrics.ToInt64` | service/metrics.go:75 | `int(u)` is in the signed 64-bit range and equal to `u` modulo 2^64 |
| `Metrics.PriceCmp` | service/metrics.go:74-76 | `int(a.Price - b.Price)` equals the true price difference whenever that difference fits in a signed 64-bit integer |
| `Metrics.MinFrom` | service/metrics.go:74 | the MinFunc loop returns its running minimum or a later element of the list |
| `Metrics.CheapestBook` | service/metrics.go:73-77 | the cheapest book is an element of the list |
| `Metrics.CheapestIsFirstCheapest` | service/metrics.go:73-77 | when no two prices differ by 2^63 or more, the cheapest book is at an index where no book is cheaper and every earlier book is strictly dearer (the leftmost minimum) |
| `Metrics.FirstCheapestIsUnique` | service/metrics.go:74 | there is only one leftmost-minimum index, so the returned book is determined |
| `Metrics.CheapestMisordersWidePrices` | service/metrics.go:74-76 | for prices 2^63 + 1 and 0 the comparator wraps and the dearer, first book is returned |
| `Metrics.CountByAuthor` | service/metrics.go:79-87 | the author count never exceeds the number of books |
| `Metrics.CountIsAuthorMultiplicity` | service/metrics.go:82 | the count is the multiplicity of the author among the books' authors under exact string equality |
| `Metrics.CountPositiveIffWritten` | service/metrics.go:79-87 | the count is positive exactly when some book's author equals the argument |
| `Metrics.BooksCountByAuthor` | service/metrics.go:79-87 | the counting loop returns `CountByAuthor` modulo 2^64, which is the exact count for any list shorter than 2^64 |
| `Metrics.GetMeanUnitsSold` | service/metrics.go:28-37 | a fetch failure returns 0 and the wrapped cause; an empty list returns 0 and the no-books error; otherwise it returns no error and `MeanOf(books)`, so it never divides by zero |
| `Metrics.GetCheapestBook` | service/metrics.go:39-48 | a fetch failure returns the zero book and the wrapped cause; an empty list returns the zero book and the no-books error; otherwise it returns no error and the cheapest book, an element of the list |
| `Metrics.GetBooksCountByAuthor` | service/metrics.go:50-63 | fetch failure, then empty list, then a zero count, each gives its error and count 0; otherwise the count with no error, and a successful count is at least 1 |
| `Metrics.TestBooksMetrics` | service/metrics_test.go:23-30 | on the test catalogue the mean is 53750000, the cheapest book is the Lewis book at 15, and the counts are 3 for Tolkien, 1 for Lewis and 0 for an unknown author |
| `Status.MapErrorToHTTPStatus` | handler/errors.go:10-21 | every error maps to 404, 502 or 500 |
| `Status.StatusClasses` | handler/errors.go:11-20 | 404 exactly when the chain holds no-books or author-not-found; 502 exactly when it holds neither but holds fetching-books; 500 exactly when it holds none of the three |
| `Status.NeverOK` | handler/errors.go:10-21 | an error is never mapped to 200 |
| `Status.StatusIsStructural` | handler/errors.go:11-17 | two errors whose chains hold the same sentinels, in any order, get the same status, whatever their messages |
| `Status.FetchErrorStatus` | handler/errors.go:12-17 | a wrapped fetch error maps to 502, or to 404 when its cause already holds a 404 sentinel (the first matching case wins) |
| `Status.RepositoryFailureIsBadGateway` | handler/errors.go:16-17 | any repository failure, once wrapped by the engine, maps to 502 |
| `Status.FirstMatchWins` | handler/errors.go:11-17 | every error that matches the fetching-books sentinel and also a 404 sentinel maps to 404, not 502 |
| `Handler.ErrorResponse` | handler/metrics.go:31 | an error response carries the mapped status, never 200, and a body whose only key is "error", holding the error's message |
| `Handler.BookJson` | handler/metrics.go:43 | the book body holds exactly the five record fields, with "name" and "price" holding the book's name and price |
| `Handler.MeanResponse` | handler/metrics.go:28-35 | status 200 exactly when there is no error; an error gives the error response; success gives a body whose only key is "mean_units_sold", holding the mean |
| `Handler.CheapestResponse` | handler/metrics.go:37-44 | status 200 exactly when there is no error; an error gives the error response; success gives the book record itself as the body |
| `Handler.CountResponse` | handler/metrics.go:46-55 | status 200 exactly when there is no error; an error gives the error response; success gives a body whose only key is "count", holding the count |
| `Handler.GetMeanUnitsSold` | handler/metrics.go:28-35 | end to end: a repository failure is a 502 carrying the wrapped message; an empty list is 404 "no books found"; otherwise 200 with the mean |
| `Handler.GetCheapestBook` | handler/metrics.go:37-44 | end to end: a repository failure is a 502; an empty list is 404 "no books found"; otherwise 200 with the cheapest book's fields |
| `Handler.GetBooksCountByAuthor` | handler/metrics.go:46-55 | end to end: the path parameter is counted as given; a repository failure is a 502; an empty list is 404 "no books found" even for an unknown author; a zero count is 404 "author not found"; otherwise 200 with the count |
| `Handler.HandlerTestScenarios` | handler/metrics_test.go:43-174 | all ten handler tests: success gives 200 with the mean 53750000, the count 3, or the Lewis book's name and price 15; for each endpoint the no-books sentinel gives 404 and the fetching-books sentinel 502; author-not-found gives 404 |

## Left out

- Fetching over HTTP and decoding JSON (repository/http_book.go) are left out: they are network and library I/O. One fetch is a parameter of type `FetchResult`. Only the shapes of the errors the fetch returns are kept.
- Context cancellation reaching the outbound request is runtime behaviour. It shows up only as an execution error among the possible causes.
- gin routing, path-parameter extraction and JSON serialisation (cmd/routes.go, `ctx.JSON`) are framework calls. A response is a status and a JSON object, and the author is the parameter as extracted.
- Dependency wiring (cmd/main.go, cmd/service.go, cmd/handler.go, cmd/repository.go), the repository interface, the test doubles and the mutable upstream URL have no logic to model.
- models/book.go is not part of this model. The book's JSON field names are taken from the upstream JSON used in repository/http_book_test.go.
- Errors.Is: only sentinel targets are modelled. Error types with their own `Is` or `Unwrap` methods (such as those of net/url) are treated as opaque foreign leaves.
- Metrics.CheapestIsFirstCheapest: the leftmost-minimum property is proved only when no two prices differ by 2^63 or more. When two prices do, the source's comparator `int(a.Price - b.Price)` can misorder them, as `Metrics.CheapestMisordersWidePrices` shows.
- Metrics.MeanWithinRange: the bounds hold only when the sum fits in 64 bits. `Metrics.MeanWrapsOnOverflow` shows the wrapped case.
- JSON numbers are unbounded integers here. The serialiser's own number formatting is not modelled.
- Go's `uint` and `int` are fixed at 64 bits (`U64`, and `int(...)` read as a signed 64-bit value). On 32-bit targets they are 32 bits wide, and the wrap-around points differ.
- Go strings are byte sequences, while strings here are sequences of Unicode characters. An author path parameter that is not valid UTF-8 has no counterpart in the model.

/** The metrics engine (service/metrics.go).

    Each of the three operations asks the repository for the whole book list
    and then decides, in this order: a failed fetch is returned wrapped in
    the fetching-books error; an empty list is the no-books error; otherwise
    the metric is computed, and for the count by author a count of zero is
    the author-not-found error.  Arithmetic is Go's 64-bit `uint`, so the sum
    of units sold wraps, and the price comparator subtracts two `uint`s
    before converting to `int`. */
module Metrics {
  import opened Errors
  import opened Repository

  // ---------------------------------------------------------------- errors

  /** fmt.Errorf("%w: %w", ErrFetchingBooks, cause) */
  function FetchError(cause: Error): (e: Error)
    ensures forall s :: Is(e, s) <==> s == FetchingBooks || Is(cause, s)
    ensures Message(e) == "fetching books: " + Message(cause)
  {
    Pair(Leaf(FetchingBooks), cause)
  }

  // ------------------------------------------------------- mean units sold

  /** The exact sum of the units sold, with no bound. */
  function SumUnits(books: seq<Book>): nat {
    if books == [] then 0 else SumUnits(books[..|books| - 1]) + books[|books| - 1].unitsSold
  }

  /** What `meanUnitsSold` returns: the sum as a `uint` (that is, modulo
      2^64) divided by the number of books, rounding down.  When the sum
      fits in 64 bits this is the floor of the true average. */
  function MeanOf(books: seq<Book>): (mean: U64)
    requires books != []
    ensures SumUnits(books) < TWO_64 ==> mean * |books| <= SumUnits(books) < (mean + 1) * |books|
  {
    var wrapped := SumUnits(books) % TWO_64;
    DivFloor(wrapped, |books|);
    wrapped / |books|
  }

  lemma DivFloor(a: nat, n: nat)
    requires n > 0
    ensures a / n <= a
    ensures (a / n) * n <= a < (a / n + 1) * n
  {
    var q, r := a / n, a % n;
    assert a == q * n + r;
    assert (q + 1) * n == q * n + n;
    MulMonotonic(1, n, q);
  }

  lemma AddWraps(acc: U64, x: U64, total: int)
    requires acc == total % TWO_64
    ensures (acc + x) % TWO_64 == (total + x) % TWO_64
  {
    var q := total / TWO_64;
    assert total + x == q * TWO_64 + (acc + x);
  }

  lemma SumUnitsPrefix(books: seq<Book>, i: nat)
    requires i < |books|
    ensures SumUnits(books[..i + 1]) == SumUnits(books[..i]) + books[i].unitsSold
  {
    assert books[..i + 1][..i] == books[..i];
  }

  /** `sum / uint(len(books))` */
  function MeanStep(sum: U64, n: nat): (mean: U64)
    requires n > 0
    ensures mean <= sum
    ensures mean * n <= sum < (mean + 1) * n
  {
    DivFloor(sum, n);
    sum / n
  }

  /** meanUnitsSold: `sum += book.UnitsSold` on a uint, then `sum / len`. */
  method MeanUnitsSold(books: seq<Book>) returns (mean: U64)
    requires books != []
    ensures mean == MeanOf(books)
  {
    var sum: U64 := 0;
    for i := 0 to |books|
      invariant sum == SumUnits(books[..i]) % TWO_64
    {
      SumUnitsPrefix(books, i);
      AddWraps(sum, books[i].unitsSold, SumUnits(books[..i]));
      sum := (sum + books[i].unitsSold) % TWO_64;
    }
    assert books[..|books|] == books;
    assert sum == SumUnits(books) % TWO_64;
    mean := MeanStep(sum, |books|);
  }

  lemma {:induction false} SumUnitsBounds(books: seq<Book>, lo: int, hi: int)
    requires forall j :: 0 <= j < |books| ==> lo <= books[j].unitsSold <= hi
    ensures lo * |books| <= SumUnits(books) <= hi * |books|
  {
    if books != [] {
      var init := books[..|books| - 1];
      assert forall j :: 0 <= j < |init| ==> init[j] == books[j];
      SumUnitsBounds(init, lo, hi);
      assert lo * |books| == lo * |init| + lo;
      assert hi * |books| == hi * |init| + hi;
    }
  }

  lemma MulMonotonic(a: int, b: int, n: nat)
    ensures a <= b ==> a * n <= b * n
  {
    var d := b - a;
    assert b * n == a * n + d * n;
  }

  /** Without overflow the mean lies between the smallest and the largest
      number of units sold. */
  lemma MeanWithinRange(books: seq<Book>, lo: int, hi: int)
    requires books != [] && SumUnits(books) < TWO_64
    requires forall j :: 0 <= j < |books| ==> lo <= books[j].unitsSold <= hi
    ensures lo <= MeanOf(books) <= hi
  {
    var n, s, m := |books|, SumUnits(books), MeanOf(books);
    SumUnitsBounds(books, lo, hi);
    assert lo * n <= s <= hi * n;
    assert m * n <= s < (m + 1) * n;
    // a mean above `hi` would make `m * n` exceed `hi * n`
    MulMonotonic(hi + 1, m, n);
    assert hi + 1 <= m ==> (hi + 1) * n <= m * n;
    assert (hi + 1) * n == hi * n + n;
    // a mean below `lo` would make `(m + 1) * n` at most `lo * n`
    MulMonotonic(m + 1, lo, n);
    assert m + 1 <= lo ==> (m + 1) * n <= lo * n;
  }

  /** With a sum beyond 64 bits the mean wraps: two books with 2^64 - 1
      and 1 units sold have mean 0, not 2^63. */
  lemma MeanWrapsOnOverflow()
    ensures var books := [Book(1, "A", "X", TWO_64 - 1, 0), Book(2, "B", "X", 1, 0)];
            SumUnits(books) == TWO_64 && MeanOf(books) == 0
  {
    var books := [Book(1, "A", "X", TWO_64 - 1, 0), Book(2, "B", "X", 1, 0)];
    assert books[..1][..0] == [];
    assert SumUnits(books[..1]) == TWO_64 - 1;
  }

  // ---------------------------------------------------------- cheapest book

  /** `a - b` on two uints: the difference modulo 2^64. */
  function SubU64(a: U64, b: U64): (d: U64)
    ensures a >= b ==> d == a - b
    ensures a < b ==> d == a - b + TWO_64
  {
    (a - b) % TWO_64
  }

  /** `int(u)` for a uint: the same 64 bits read as two's complement. */
  function ToInt64(u: U64): (i: int)
    ensures -TWO_63 <= i < TWO_63
    ensures (u - i) % TWO_64 == 0
  {
    if u < TWO_63 then u else u - TWO_64
  }

  /** The comparator given to slices.MinFunc: int(a.Price - b.Price).  It
      is the true difference of the prices exactly when that difference
      fits in a signed 64-bit integer. */
  function PriceCmp(a: Book, b: Book): (c: int)
    ensures -TWO_63 <= a.price - b.price < TWO_63 ==> c == a.price - b.price
  {
    ToInt64(SubU64(a.price, b.price))
  }

  /** The loop of slices.MinFunc from index `i` on, `m` being the smallest
      element found so far: a later element replaces `m` only when it
      compares strictly less. */
  function MinFrom(books: seq<Book>, i: nat, m: Book): (r: Book)
    requires i <= |books|
    ensures r == m || r in books[i..]
    decreases |books| - i
  {
    if i == |books| then m
    else MinFrom(books, i + 1, if PriceCmp(books[i], m) < 0 then books[i] else m)
  }

  /** cheapestBook: slices.MinFunc(books, cmp), which starts from the first
      element and panics on an empty slice. */
  function CheapestBook(books: seq<Book>): (r: Book)
    requires books != []
    ensures r in books
  {
    MinFrom(books, 1, books[0])
  }

  /** Prices for which the comparator never wraps: any two prices differ by
      less than 2^63. */
  predicate PricesComparable(books: seq<Book>) {
    forall i, j :: 0 <= i < |books| && 0 <= j < |books| ==>
      -TWO_63 <= books[i].price - books[j].price < TWO_63
  }

  /** Among the first `n` books, `books[k]` is the first of least price. */
  predicate IsFirstCheapestUpTo(books: seq<Book>, n: int, k: int) {
    0 <= k < n <= |books| &&
    (forall j :: 0 <= j < n ==> books[k].price <= books[j].price) &&
    (forall j :: 0 <= j < k ==> books[k].price < books[j].price)
  }

  predicate IsFirstCheapest(books: seq<Book>, k: int) {
    IsFirstCheapestUpTo(books, |books|, k)
  }

  lemma FirstCheapestIsUnique(books: seq<Book>, k1: int, k2: int)
    requires IsFirstCheapest(books, k1) && IsFirstCheapest(books, k2)
    ensures k1 == k2
  {
    assert books[k1].price == books[k2].price;
  }

  /** One step of the MinFunc loop keeps "the first cheapest so far". */
  lemma MinStep(books: seq<Book>, i: nat, k: int) returns (k2: int)
    requires PricesComparable(books)
    requires 1 <= i < |books| && IsFirstCheapestUpTo(books, i, k)
    ensures IsFirstCheapestUpTo(books, i + 1, k2)
    ensures books[k2] == if PriceCmp(books[i], books[k]) < 0 then books[i] else books[k]
  {
    assert PriceCmp(books[i], books[k]) == books[i].price - books[k].price;
    k2 := if books[i].price < books[k].price then i else k;
  }

  lemma {:induction false} MinFromFindsFirstCheapest(books: seq<Book>, i: nat, k: int) returns (k': int)
    requires PricesComparable(books)
    requires 1 <= i <= |books| && IsFirstCheapestUpTo(books, i, k)
    ensures IsFirstCheapest(books, k') && books[k'] == MinFrom(books, i, books[k])
    decreases |books| - i
  {
    if i == |books| {
      k' := k;
    } else {
      var k2 := MinStep(books, i, k);
      k' := MinFromFindsFirstCheapest(books, i + 1, k2);
    }
  }

  /** While no two prices differ by 2^63 or more, the cheapest book is the first book of
      least price: no book is cheaper, and every book before it costs more. */
  lemma CheapestIsFirstCheapest(books: seq<Book>)
    requires books != [] && PricesComparable(books)
    ensures exists k :: IsFirstCheapest(books, k) && books[k] == CheapestBook(books)
    ensures forall j :: 0 <= j < |books| ==> CheapestBook(books).price <= books[j].price
  {
    var k := MinFromFindsFirstCheapest(books, 1, 0);
  }

  /** When two prices differ by 2^63 or more the comparator misorders: of
      two books priced 2^63 + 1 and 0, the first is returned, because int(0 - (2^63 + 1)) is positive. */
  lemma CheapestMisordersWidePrices()
    ensures var books := [Book(1, "A", "X", 0, TWO_63 + 1), Book(2, "B", "X", 0, 0)];
            CheapestBook(books) == books[0] && books[1].price < books[0].price
  {
  }

  // -------------------------------------------------------- count by author

  /** The number of books whose author is exactly `author`. */
  function CountByAuthor(books: seq<Book>, author: string): (n: nat)
    ensures n <= |books|
  {
    if books == [] then 0
    else CountByAuthor(books[..|books| - 1], author) + (if books[|books| - 1].author == author then 1 else 0)
  }

  function Authors(books: seq<Book>): (r: seq<string>)
    ensures |r| == |books| && forall j :: 0 <= j < |books| ==> r[j] == books[j].author
  {
    seq(|books|, j requires 0 <= j < |books| => books[j].author)
  }

  /** The count is the multiplicity of `author` among the books' authors:
      exact, case-sensitive string equality. */
  lemma {:induction false} CountIsAuthorMultiplicity(books: seq<Book>, author: string)
    ensures CountByAuthor(books, author) == multiset(Authors(books))[author]
  {
    if books != [] {
      var init := books[..|books| - 1];
      CountIsAuthorMultiplicity(init, author);
      assert Authors(books) == Authors(init) + [books[|books| - 1].author];
    }
  }

  lemma CountPositiveIffWritten(books: seq<Book>, author: string)
    ensures CountByAuthor(books, author) > 0 <==> exists j :: 0 <= j < |books| && books[j].author == author
  {
    CountIsAuthorMultiplicity(books, author);
    var authors := Authors(books);
    if author in authors {
      var j :| 0 <= j < |authors| && authors[j] == author;
      assert books[j].author == author;
    }
  }

  /** booksCountByAuthor: `count++` on a uint for every exact match. */
  method BooksCountByAuthor(books: seq<Book>, author: string) returns (count: U64)
    ensures count == CountByAuthor(books, author) % TWO_64
    ensures |books| < TWO_64 ==> count == CountByAuthor(books, author)
  {
    count := 0;
    for i := 0 to |books|
      invariant count == CountByAuthor(books[..i], author) % TWO_64
    {
      assert books[..i + 1][..i] == books[..i];
      if books[i].author == author {
        AddWraps(count, 1, CountByAuthor(books[..i], author));
        count := (count + 1) % TWO_64;
      }
    }
    assert books[..|books|] == books;
  }

  // ------------------------------------------------------------- operations

  /** GetMeanUnitsSold, given what the repository returned. */
  method GetMeanUnitsSold(fetched: FetchResult) returns (mean: U64, err: Option<Error>)
    ensures fetched.FetchFailed? ==> mean == 0 && err == Some(FetchError(fetched.cause))
    ensures fetched == Fetched([]) ==> mean == 0 && err == Some(Leaf(NoBooksFound))
    ensures fetched.Fetched? && fetched.books != [] ==> err == None && mean == MeanOf(fetched.books)
  {
    match fetched
    case FetchFailed(cause) =>
      return 0, Some(FetchError(cause));
    case Fetched(books) =>
      if |books| == 0 {
        return 0, Some(Leaf(NoBooksFound));
      }
      mean := MeanUnitsSold(books);
      err := None;
  }

  /** The zero value of models.Book, returned alongside an error. */
  const NoBook := Book(0, "", "", 0, 0)

  /** GetCheapestBook, given what the repository returned. */
  method GetCheapestBook(fetched: FetchResult) returns (book: Book, err: Option<Error>)
    ensures fetched.FetchFailed? ==> book == NoBook && err == Some(FetchError(fetched.cause))
    ensures fetched == Fetched([]) ==> book == NoBook && err == Some(Leaf(NoBooksFound))
    ensures fetched.Fetched? && fetched.books != [] ==>
              err == None && book == CheapestBook(fetched.books) && book in fetched.books
  {
    match fetched
    case FetchFailed(cause) =>
      return NoBook, Some(FetchError(cause));
    case Fetched(books) =>
      if |books| == 0 {
        return NoBook, Some(Leaf(NoBooksFound));
      }
      book := CheapestBook(books);
      err := None;
  }

  /** GetBooksCountByAuthor, given what the repository returned: the
      no-books check comes before the author check. */
  method GetBooksCountByAuthor(fetched: FetchResult, author: string) returns (count: U64, err: Option<Error>)
    ensures fetched.FetchFailed? ==> count == 0 && err == Some(FetchError(fetched.cause))
    ensures fetched == Fetched([]) ==> count == 0 && err == Some(Leaf(NoBooksFound))
    ensures fetched.Fetched? && fetched.books != [] ==>
              var n := CountByAuthor(fetched.books, author) % TWO_64;
              if n == 0 then count == 0 && err == Some(Leaf(AuthorNotFound))
              else count == n && err == None
    ensures err == None ==> count >= 1
  {
    match fetched
    case FetchFailed(cause) =>
      return 0, Some(FetchError(cause));
    case Fetched(books) =>
      if |books| == 0 {
        return 0, Some(Leaf(NoBooksFound));
      }
      count := BooksCountByAuthor(books, author);
      if count == 0 {
        return 0, Some(Leaf(AuthorNotFound));
      }
      err := None;
  }

  // --------------------------------------------------------------- examples

  /** The catalogue of the service tests: three Tolkien books at 20 and one
      Lewis book at 15. */
  function TestBooks(): seq<Book> {
    [ Book(1, "The Fellowship of the Ring", "J.R.R. Tolkien", 50000000, 20),
      Book(2, "The Two Towers", "J.R.R. Tolkien", 30000000, 20),
      Book(3, "The Return of the King", "J.R.R. Tolkien", 50000000, 20),
      Book(4, "The Lion, the Witch and the Wardrobe", "C.S. Lewis", 85000000, 15) ]
  }

  lemma TestBooksMetrics()
    ensures MeanOf(TestBooks()) == 53750000
    ensures CheapestBook(TestBooks()).name == "The Lion, the Witch and the Wardrobe"
    ensures CheapestBook(TestBooks()).price == 15
    ensures CountByAuthor(TestBooks(), "J.R.R. Tolkien") == 3
    ensures CountByAuthor(TestBooks(), "C.S. Lewis") == 1
    ensures CountByAuthor(TestBooks(), "Unknown Author") == 0
  {
    var b := TestBooks();
    assert b[..3][..2][..1][..0] == [];
    assert b[..3][..2][..1] == b[..1];
    assert b[..3][..2] == b[..2];
    assert SumUnits(b[..1]) == 50000000;
    assert SumUnits(b[..2]) == 80000000;
    assert SumUnits(b[..3]) == 130000000;
    assert SumUnits(b) == 215000000;
    assert CountByAuthor(b[..1], "J.R.R. Tolkien") == 1;
    assert CountByAuthor(b[..2], "J.R.R. Tolkien") == 2;
    assert CountByAuthor(b[..3], "J.R.R. Tolkien") == 3;
    assert CountByAuthor(b[..1], "C.S. Lewis") == 0;
    assert CountByAuthor(b[..2], "C.S. Lewis") == 0;
    assert CountByAuthor(b[..3], "C.S. Lewis") == 0;
    assert CountByAuthor(b[..1], "Unknown Author") == 0;
    assert CountByAuthor(b[..2], "Unknown Author") == 0;
    assert CountByAuthor(b[..3], "Unknown Author") == 0;
  }
}

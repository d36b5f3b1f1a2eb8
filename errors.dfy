/** Go error values as the bookshop builds and inspects them.

    A value made by `errors.New` is a sentinel, compared by identity; the
    sentinels the repository declares are named constructors, and every other
    error (from net/http, from encoding/json, from a test double) is a
    `Foreign` sentinel told apart by an identity number.  `fmt.Errorf` with a
    `%w` verb builds a wrapping error: "%w: %w" wraps two errors, "%w: %d"
    wraps one error and prints a status code after it.  `Is` is the tree walk
    of `errors.Is`: an error matches a target when it is the target or when
    one of the errors it wraps matches it. */
module Errors {

  datatype Option<+T> = None | Some(value: T)

  /** The values created with `errors.New`. */
  datatype Sentinel =
    // service/errors.go
    | NoBooksFound
    | AuthorNotFound
    | FetchingBooks
    // repository/errors.go
    | CreatingRequest
    | ExecutingRequest
    | UnexpectedStatus
    | DecodingResponse
    // any error created outside the repository's own code
    | Foreign(id: nat, text: string)
  {
    /** The text given to `errors.New`. */
    function Text(): string {
      match this
      case NoBooksFound => "no books found"
      case AuthorNotFound => "author not found"
      case FetchingBooks => "fetching books"
      case CreatingRequest => "creating request"
      case ExecutingRequest => "executing request"
      case UnexpectedStatus => "unexpected status code"
      case DecodingResponse => "decoding response"
      case Foreign(_, text) => text
    }
  }

  datatype Error =
    | Leaf(sentinel: Sentinel)              // errors.New(...)
    | Pair(first: Error, second: Error)     // fmt.Errorf("%w: %w", first, second)
    | WithStatus(inner: Error, code: nat)   // fmt.Errorf("%w: %d", inner, code)

  /** errors.Is(e, target) for a sentinel target. */
  predicate Is(e: Error, target: Sentinel) {
    match e
    case Leaf(s) => s == target
    case Pair(a, b) => Is(a, target) || Is(b, target)
    case WithStatus(a, _) => Is(a, target)
  }

  /** The sentinels reachable from `e` by unwrapping, left to right. */
  function Chain(e: Error): seq<Sentinel> {
    match e
    case Leaf(s) => [s]
    case Pair(a, b) => Chain(a) + Chain(b)
    case WithStatus(a, _) => Chain(a)
  }

  /** `Is` matches exactly the sentinels found by unwrapping: it is
      structural, it never looks at the text of a message. */
  lemma {:induction false} IsIffInChain(e: Error, target: Sentinel)
    ensures Is(e, target) <==> target in Chain(e)
  {
    match e
    case Leaf(s) =>
    case Pair(a, b) =>
      IsIffInChain(a, target);
      IsIffInChain(b, target);
    case WithStatus(a, _) =>
      IsIffInChain(a, target);
  }

  function DigitChar(d: nat): (c: char)
    requires d < 10
    ensures '0' <= c <= '9' && c as int - '0' as int == d
  {
    "0123456789"[d]
  }

  /** The `%d` rendering of a non-negative number. */
  function Decimal(n: nat): (r: string)
    ensures 1 <= |r|
    ensures forall i :: 0 <= i < |r| ==> '0' <= r[i] <= '9'
    ensures n < 10 <==> |r| == 1
    ensures n > 0 ==> r[0] != '0'
  {
    if n < 10 then [DigitChar(n)] else Decimal(n / 10) + [DigitChar(n % 10)]
  }

  /** The number a string of decimal digits stands for. */
  function DigitsValue(s: string): int {
    if s == [] then 0 else DigitsValue(s[..|s| - 1]) * 10 + (s[|s| - 1] as int - '0' as int)
  }

  /** The digits of `Decimal(n)` stand for `n`. */
  lemma {:induction false} DecimalValue(n: nat)
    ensures DigitsValue(Decimal(n)) == n
  {
    if n < 10 {
      assert Decimal(n)[..0] == [];
    } else {
      var init, last := Decimal(n / 10), DigitChar(n % 10);
      DecimalValue(n / 10);
      assert (init + [last])[..|init|] == init;
      assert last as int - '0' as int == n % 10;
      assert (n / 10) * 10 + n % 10 == n;
    }
  }

  /** The text `e.Error()` returns. */
  function Message(e: Error): string {
    match e
    case Leaf(s) => s.Text()
    case Pair(a, b) => Message(a) + ": " + Message(b)
    case WithStatus(a, code) => Message(a) + ": " + Decimal(code)
  }

  /** Two sentinels with the same text are still different errors. */
  lemma IsIgnoresText()
    ensures Message(Leaf(Foreign(1, "fetching books"))) == Message(Leaf(FetchingBooks))
    ensures !Is(Leaf(Foreign(1, "fetching books")), FetchingBooks)
  {
  }
}

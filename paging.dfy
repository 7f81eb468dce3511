/**
 * Query-string paging as the list handlers do it (backend/handlers/orders.go
 * GetOrders, backend/handlers/products.go GetProducts): integer parameters
 * parsed with `strconv.Atoi` and the error ignored, GORM's `Offset`/`Limit`,
 * and a page count computed with Go's truncating integer division. Go's
 * `int` and `int64` are 64 bits wide here: `Atoi` saturates at the ends of
 * that range, and the offset and page-count arithmetic wraps around.
 */
module Paging {
  import opened Wrappers
  import Text

  const MaxInt64: int := 0x7fff_ffff_ffff_ffff
  const MinInt64: int := -0x8000_0000_0000_0000
  const TwoTo64: int := 0x1_0000_0000_0000_0000

  predicate InInt64(x: int)
  {
    MinInt64 <= x <= MaxInt64
  }

  /** Two's-complement wrap-around of a 64-bit result. */
  function Wrap64(x: int): (r: int)
    ensures InInt64(r)
    ensures InInt64(x) ==> r == x
    ensures (x - r) % TwoTo64 == 0
  {
    if InInt64(x) then x else (x - MinInt64) % TwoTo64 + MinInt64
  }

  /** `strconv.Atoi` with its error dropped: a malformed string gives 0, an out-of-range number the nearest end of the range. */
  function Atoi(s: string): (r: int)
    ensures InInt64(r)
    ensures Text.ParseInt(s).None? ==> r == 0
    ensures Text.ParseInt(s).Some? && InInt64(Text.ParseInt(s).value) ==> r == Text.ParseInt(s).value
    ensures Text.ParseInt(s).Some? && Text.ParseInt(s).value > MaxInt64 ==> r == MaxInt64
    ensures Text.ParseInt(s).Some? && Text.ParseInt(s).value < MinInt64 ==> r == MinInt64
  {
    match Text.ParseInt(s)
    case None => 0
    case Some(v) => if v > MaxInt64 then MaxInt64 else if v < MinInt64 then MinInt64 else v
  }

  /** `strconv.Atoi(c.DefaultQuery(name, default))` with the error dropped: absent gives the default. */
  function QueryInt(raw: Option<string>, default: int): (r: int)
    ensures raw.None? ==> r == default
    ensures raw.Some? ==> r == Atoi(raw.value)
  {
    match raw
    case None => default
    case Some(s) => Atoi(s)
  }

  /** A page number or limit written in decimal and within range is read back as itself. */
  lemma QueryIntOfDecimal(n: nat, default: int)
    requires n <= MaxInt64
    ensures QueryInt(Some(Text.NatToDecimal(n)), default) == n
  {
    Text.ParseIntOfDecimal(n);
  }

  /** `offset := (page - 1) * limit` in Go's wrapping `int`. */
  function Offset(page: int, limit: int): (r: int)
    ensures InInt64(r)
    ensures InInt64(page - 1) && InInt64((page - 1) * limit) ==> r == (page - 1) * limit
  {
    Wrap64(Wrap64(page - 1) * limit)
  }

  function Abs(x: int): nat
  {
    if x < 0 then -x else x
  }

  /** Go's integer `/`: the quotient truncated toward zero. */
  function TruncDiv(a: int, b: int): (q: int)
    requires b != 0
    ensures a >= 0 && b > 0 ==> q == a / b
  {
    if (a < 0) != (b < 0) then -(Abs(a) / Abs(b)) else Abs(a) / Abs(b)
  }

  /**
   * `Offset(offset).Limit(limit)`: GORM emits OFFSET only for a positive
   * offset and LIMIT only for a non-negative limit.
   */
  function Window<T>(rows: seq<T>, offset: int, limit: int): (r: seq<T>)
    ensures limit >= 0 ==> |r| <= limit
    ensures offset <= 0 && (limit < 0 || limit >= |rows|) ==> r == rows
    ensures forall i :: 0 <= i < |r| ==> ((if offset > 0 then offset else 0) + i < |rows| &&
      r[i] == rows[(if offset > 0 then offset else 0) + i])
  {
    var skip := if offset > 0 then offset else 0;
    var rest := if skip >= |rows| then [] else rows[skip..];
    if limit >= 0 && limit < |rest| then rest[..limit] else rest
  }

  /** The `pages` field of a listing: `(total + int64(limit) - 1) / int64(limit)`, each step in wrapping `int64`. */
  function PageCount(total: int, limit: int): (r: int)
    requires limit != 0
    ensures InInt64(r)
  {
    Wrap64(TruncDiv(Wrap64(Wrap64(total + limit) - 1), limit))
  }

  /** Without overflow the wrapped steps are the exact ones: `pages` is `(total + limit - 1) / limit`. */
  lemma PageCountExact(total: nat, limit: int)
    requires 0 < limit && total + limit <= MaxInt64
    ensures PageCount(total, limit) == (total + limit - 1) / limit
  {
    var n := total + limit - 1;
    assert Wrap64(total + limit) == total + limit;
    assert Wrap64(n) == n;
    DivBounds(n, limit);
    assert TruncDiv(n, limit) == n / limit;
  }

  /** For a positive limit, and while `total + limit` does not overflow, the page count is the ceiling of total / limit. */
  lemma PageCountIsCeiling(total: nat, limit: int)
    ensures 0 < limit && total + limit <= MaxInt64 ==> PageCount(total, limit) >= 0
    ensures 0 < limit && total + limit <= MaxInt64 ==>
      (PageCount(total, limit) - 1) * limit < total <= PageCount(total, limit) * limit
  {
    if limit <= 0 || total + limit > MaxInt64 {
      return;
    }
    PageCountExact(total, limit);
    var q := (total + limit - 1) / limit;
    var r := (total + limit - 1) % limit;
    assert q * limit + r == total + limit - 1;
    assert 0 <= r < limit;
    assert q * limit == total + limit - 1 - r;
    assert (q - 1) * limit == q * limit - limit;
  }

  /** The offset of page `q + 1` is `q * limit` while that fits in 64 bits. */
  lemma OffsetOfPage(q: nat, limit: int)
    requires 0 < limit && q * limit <= MaxInt64
    ensures Offset(q + 1, limit) == q * limit
  {
    var p := q * limit;
    if q > 0 {
      MulMonotone(1, limit, q);
    }
    assert 0 <= q <= p;
    assert Wrap64(q + 1 - 1) == q;
    assert Wrap64(q * limit) == p;
  }

  /** A row within `limit` rows after a positive offset is in the window. */
  lemma WindowHolds<T>(rows: seq<T>, skip: nat, limit: nat, j: nat)
    requires skip + j < |rows| && j < limit
    ensures j < |Window(rows, skip, limit)| && Window(rows, skip, limit)[j] == rows[skip + j]
  {
  }

  /** Row `i` of `n` is on a page no later than the last counted one. */
  lemma RowPageCounted(n: nat, limit: int, i: nat)
    requires limit > 0 && i < n && n + limit <= MaxInt64
    ensures i / limit + 1 <= PageCount(n, limit)
  {
    PageCountExact(n, limit);
    DivParts(i, limit);
    var q := i / limit;
    assert (q + 1) * limit == q * limit + limit;
    DivAtLeast(n + limit - 1, limit, q + 1);
  }

  /** Row `i` is shown on page `i / limit + 1`, which is one of the counted pages. */
  lemma {:induction false} RowOnItsPage<T>(rows: seq<T>, limit: int, i: nat)
    requires limit > 0 && i < |rows| && |rows| + limit <= MaxInt64
    ensures var page := i / limit + 1;
      1 <= page <= PageCount(|rows|, limit) &&
      0 <= i - (page - 1) * limit < |Window(rows, Offset(page, limit), limit)| &&
      Window(rows, Offset(page, limit), limit)[i - (page - 1) * limit] == rows[i]
  {
    DivParts(i, limit);
    var q := i / limit;
    var skip := q * limit;
    assert q + 1 - 1 == q;
    OffsetOfPage(q, limit);
    WindowHolds(rows, skip, limit, i - skip);
    RowPageCounted(|rows|, limit, i);
  }

  /** `a / b` of a natural number by a positive divisor lies between 0 and `a`. */
  lemma DivBounds(a: nat, b: int)
    requires b > 0
    ensures 0 <= a / b <= a
  {
    var q := a / b;
    assert q * b + a % b == a;
    if q > a {
      MulMonotone(1, b, q);
      assert false;
    }
  }

  /** Quotient and remainder of a natural number: `a / b` is a whole number of `b`s at most `a`, with fewer than `b` left. */
  lemma DivParts(a: nat, b: int)
    requires b > 0
    ensures 0 <= a / b && 0 <= (a / b) * b <= a < (a / b) * b + b
  {
    DivBounds(a, b);
    assert (a / b) * b + a % b == a;
  }

  /** A multiple of `b` not above `a` has at most `a / b` `b`s. */
  lemma DivAtLeast(a: int, b: int, k: int)
    requires b > 0 && k * b <= a
    ensures k <= a / b
  {
    var q := a / b;
    assert q * b + a % b == a && a % b < b;
    if q < k {
      assert (q + 1) * b == q * b + b;
      MulMonotone(q + 1, k, b);
      assert false;
    }
  }

  lemma MulMonotone(a: int, b: int, c: int)
    requires a <= b && c > 0
    ensures a * c <= b * c
  {
  }
}

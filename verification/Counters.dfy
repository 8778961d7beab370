/**
 The two message headers that count: x-acquired-count, written by the broker and
 compared with the cap (maxAcquiredCountHit in internal/provider/connectors/amqp091/amqp091shim.go),
 and x-retry-count, raised by every delayed retry (updateRetryCountHeader in amqp091.go).
 */
module Counters {
  const TWO_31 := 0x8000_0000
  const TWO_32 := 0x1_0000_0000

  /** A header field as the client library decodes it. */
  datatype HeaderValue = Absent | Int32(n: int) | Int64(n: int) | Other

  /** Go's conversion to int32. */
  function ToInt32(n: int): (r: int)
    ensures -TWO_31 <= r < TWO_31 && (r - n) % TWO_32 == 0
  {
    (n + TWO_31) % TWO_32 - TWO_31
  }

  /** maxAcquiredCountHit: any other type of header counts as 0. */
  function MaxHit(h: HeaderValue, max: int): bool {
    match h
    case Absent => false
    case Int32(n) => n > max
    case Int64(n) => ToInt32(n) > max
    case Other => 0 > max
  }

  /** updateRetryCountHeader: the new header value. */
  function Bumped(h: HeaderValue): HeaderValue {
    match h
    case Int32(n) => Int32(ToInt32(n + 1))
    case Int64(n) => Int32(ToInt32(ToInt32(n) + 1))
    case _ => Int32(1)
  }

  /** maxAcquiredCountHit, as written: the count starts at 0 and only the integer cases set it. */
  method MaxAcquiredCountHit(h: HeaderValue, max: int) returns (maxed: bool)
    requires max >= 0
    ensures maxed == MaxHit(h, max)
  {
    maxed := false;
    if h != Absent {
      var count := 0;
      match h {
        case Int32(n) => count := n;
        case Int64(n) => count := ToInt32(n);
        case _ =>
      }
      if count > max {
        maxed := true;
      }
    }
  }

  /** updateRetryCountHeader, as written; `++` wraps around. */
  method UpdateRetryCountHeader(h: HeaderValue) returns (header: HeaderValue)
    ensures header == Bumped(h)
  {
    var retryCount := 0;
    match h {
      case Int32(n) => retryCount := n;
      case Int64(n) => retryCount := ToInt32(n);
      case _ =>
    }
    retryCount := ToInt32(retryCount + 1);
    header := Int32(retryCount);
  }

  /** The header after `n` retries. */
  function BumpedTimes(h: HeaderValue, n: nat): HeaderValue {
    if n == 0 then h else Bumped(BumpedTimes(h, n - 1))
  }

  /** The count a retry starts from: a number, or 0 for a header that is missing or not a number. */
  function StartCount(h: HeaderValue): int {
    if h.Int32? || h.Int64? then h.n else 0
  }

  /** Numbers that agree modulo 2^32 convert to the same int32. */
  lemma ToInt32Agrees(m: int, n: int, k: int)
    requires m - n == k * TWO_32
    ensures ToInt32(m) == ToInt32(n)
  {
    assert m + TWO_31 == n + TWO_31 + k * TWO_32;
  }

  lemma WrapThenCount(n: int)
    ensures ToInt32(ToInt32(n) + 1) == ToInt32(n + 1)
  {
    ToInt32Agrees(ToInt32(n) + 1, n + 1, (ToInt32(n) - n) / TWO_32);
  }

  /** No retry is forgotten: after n > 0 retries the header is the starting count plus n, as an int32. */
  lemma {:induction false} RetryCountIsExact(h: HeaderValue, n: nat)
    requires n > 0
    ensures BumpedTimes(h, n) == Int32(ToInt32(StartCount(h) + n))
  {
    if n == 1 {
      assert BumpedTimes(h, 0) == h;
      if h.Int64? {
        WrapThenCount(h.n);
      }
    } else {
      RetryCountIsExact(h, n - 1);
      WrapThenCount(StartCount(h) + n - 1);
    }
  }

  /** The cap is exact for counts below 2^31, however the broker encodes them. */
  lemma CapIsExactBelow(n: nat, max: nat)
    requires n < TWO_31
    ensures MaxHit(Int64(n), max) <==> n > max
    ensures MaxHit(Int32(n), max) <==> n > max
  {
  }

  /** A 64-bit count escapes the cap exactly when its low 32 bits, read as a signed number, are at most the cap. */
  lemma CapEscapes(n: nat, max: nat)
    requires n > max && max < TWO_31
    ensures !MaxHit(Int64(n), max) <==> (n % TWO_32 <= max || n % TWO_32 >= TWO_31)
  {
  }

  /** The first count that escapes: after 2^31 acquisitions a message over the default cap of 20 passes the check again. */
  lemma TwoToThe31Escapes()
    ensures MaxHit(Int64(TWO_31 - 1), 20) && !MaxHit(Int64(TWO_31), 20)
  {
    CapIsExactBelow(TWO_31 - 1, 20);
    CapEscapes(TWO_31, 20);
  }
}

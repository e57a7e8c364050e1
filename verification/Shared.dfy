/** Value objects and helpers that the two aggregates share. */
module Shared {

  datatype Option<+T> = None | Some(value: T)

  datatype Result<+T, +E> = Ok(value: T) | Err(error: E)

  /** Answers of libraries that this model does not look inside. */
  datatype Env = Env(
    isLower: string -> bool,             // a string equals its own lower-casing
    knownZone: string -> bool,           // the IANA database knows the zone
    before: (string, string) -> bool)    // the database collation, as "sorts no later than"

  /** The rules a unit of work must meet. `None` units means unbounded. */
  datatype Eligibility = Eligibility(
    maxUnits: Option<int>, required: seq<string>, excluded: seq<string>, nonSortable: bool)

  predicate KnownRole(role: string) {
    role == "" || role == "Drop" || role == "WorkCenter" || role == "Shipping"
  }

  const NANOS_PER_MICRO := 1000
  const NANOS_PER_DAY := 24 * 3600 * 1_000_000_000
  const INT64_MAX := 0x7fff_ffff_ffff_ffff
  const INT64_MIN := -INT64_MAX - 1

  predicate InInt64(x: int) { INT64_MIN <= x <= INT64_MAX }

  /** What a signed 64-bit register holds after an arithmetic result `x`. */
  function Wrap64(x: int): int { (x - INT64_MIN) % 0x1_0000_0000_0000_0000 + INT64_MIN }

  /** Go's integer division truncates toward zero. */
  function TruncDiv(x: int, unit: int): int
    requires unit > 0
  {
    if x >= 0 then x / unit else -((-x) / unit)
  }

  /** A duration after the loss of its sub-microsecond part. */
  function WholeMicros(d: int): int { TruncDiv(d, NANOS_PER_MICRO) * NANOS_PER_MICRO }

  /** A timestamp (nanoseconds since the epoch) after a TIMESTAMPTZ column rounded it down. */
  function ColumnTime(t: int): int { t / NANOS_PER_MICRO * NANOS_PER_MICRO }

  ghost predicate TotalOrder(le: (string, string) -> bool) {
    && (forall a, b :: le(a, b) || le(b, a))
    && (forall a, b :: le(a, b) && le(b, a) ==> a == b)
    && (forall a, b, c :: le(a, b) && le(b, c) ==> le(a, c))
  }

  /** Strictly ascending, hence without repetition. */
  ghost predicate Ascending(le: (string, string) -> bool, ids: seq<string>) {
    forall i, j :: 0 <= i < j < |ids| ==> le(ids[i], ids[j]) && ids[i] != ids[j]
  }

  /** A set of strings has one ascending listing. */
  lemma {:induction false} AscendingIsUnique(le: (string, string) -> bool, a: seq<string>, b: seq<string>)
    requires TotalOrder(le) && Ascending(le, a) && Ascending(le, b)
    requires forall x :: x in a <==> x in b
    ensures a == b
    decreases |a|
  {
    if a != [] { assert a[0] in b; }
    if b != [] { assert b[0] in a; }
    if a != [] {
      var i :| 0 <= i < |b| && b[i] == a[0];
      var j :| 0 <= j < |a| && a[j] == b[0];
      assert a[0] == b[0];
      assert forall x :: x in a[1..] <==> x in a && x != a[0];
      assert forall x :: x in b[1..] <==> x in b && x != b[0];
      AscendingIsUnique(le, a[1..], b[1..]);
      assert a == [a[0]] + a[1..] && b == [b[0]] + b[1..];
    }
  }

  /** ORDER BY over a unique column, and slices.Sort over distinct strings. */
  method ListAscending(le: (string, string) -> bool, ids: set<string>) returns (out: seq<string>)
    requires TotalOrder(le)
    ensures Ascending(le, out)
    ensures forall x :: x in out <==> x in ids
  {
    out := [];
    var rest := ids;
    while rest != {}
      invariant rest <= ids && Ascending(le, out)
      invariant forall x :: x in out <==> x in ids && x !in rest
      invariant forall x, y :: x in out && y in rest ==> le(x, y)
      decreases rest
    {
      var least := Least(le, rest);
      out, rest := out + [least], rest - {least};
    }
  }

  method Least(le: (string, string) -> bool, ids: set<string>) returns (least: string)
    requires TotalOrder(le) && ids != {}
    ensures least in ids && forall x :: x in ids ==> le(least, x)
  {
    least :| least in ids;
    var rest := ids - {least};
    while rest != {}
      invariant rest <= ids && least in ids
      invariant forall x :: x in ids && x !in rest ==> le(least, x)
      decreases rest
    {
      var x :| x in rest;
      if le(x, least) { least := x; }
      rest := rest - {x};
    }
  }
}

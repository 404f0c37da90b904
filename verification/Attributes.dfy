/**
 * The attributes a sensor reports about itself, and what one attribute response makes of
 * them: the last usable value of each attribute wins.
 */
module Attributes {
  import opened Common
  import opened Matrix

  const NAME := 0
  const VENDOR := 1
  const AVAILABLE := 3
  const SAMPLE_RATE := 6
  const STREAM_TYPE := 16
  const MOUNT_MATRIX := 20

  const CONTINUOUS := 0
  const ON_CHANGE := 1

  /** One attribute value: each field is present or absent on its own. */
  datatype AttrValue = AttrValue(s: Option<string>, f: Option<real>, i: Option<nat>, b: Option<bool>)

  datatype Attr = Attr(id: int, values: seq<AttrValue>)

  datatype Attrs = Attrs(name: Option<string>, vendor: Option<string>, available: bool,
                         sampleRate: real, streamType: nat, mount: Matrix)

  /** A fresh sensor: nothing known, not available, the identity as mount matrix. */
  const INITIAL := Attrs(None, None, false, 0.0, 0, IDENTITY)

  /** Whether a sensor with these attributes can be opened: available, and on-change or with a sample rate. */
  predicate Openable(p: Attrs) {
    p.available && (p.streamType == ON_CHANGE || (p.streamType == CONTINUOUS && p.sampleRate > 0.0))
  }

  /** An available sensor with any other stream type makes an open run into an assertion. */
  predicate UnknownStream(p: Attrs) {
    p.available && p.streamType > ON_CHANGE
  }

  function SingleString(vs: seq<AttrValue>): Option<string> {
    if |vs| == 1 then vs[0].s else None
  }

  function SingleBool(vs: seq<AttrValue>): Option<bool> {
    if |vs| == 1 then vs[0].b else None
  }

  function SingleInt(vs: seq<AttrValue>): Option<nat> {
    if |vs| == 1 then vs[0].i else None
  }

  predicate NoPositive(vs: seq<AttrValue>) {
    forall v <- vs :: v.f.Some? ==> v.f.value <= 0.0
  }

  function FirstPositive(vs: seq<AttrValue>): (r: Option<real>)
    ensures r.Some? ==>
              exists i :: 0 <= i < |vs| && vs[i].f == r && r.value > 0.0 && NoPositive(vs[..i])
    ensures r.None? ==> NoPositive(vs)
  {
    if vs == [] then None
    else if vs[0].f.Some? && vs[0].f.value > 0.0 then vs[0].f
    else
      assert forall i :: 0 <= i < |vs| - 1 ==> vs[..i + 1] == [vs[0]] + vs[1..][..i];
      FirstPositive(vs[1..])
  }

  /** The first `n` numbers of a matrix attribute laid over the matrix known so far. */
  function Overlay(m: Matrix, vs: seq<AttrValue>, n: nat): Matrix
    requires n <= |vs| && n <= 9
  {
    seq(9, j requires 0 <= j < 9 => if j < n && vs[j].f.Some? then vs[j].f.value else m[j])
  }

  function MountFrom(m: Matrix, vs: seq<AttrValue>): Matrix {
    Fallback(Overlay(m, vs, if |vs| < 9 then |vs| else 9))
  }

  /** One attribute, field by field; the stream type is a 64-bit wire value kept in 32 bits. */
  function ApplyAttr(p: Attrs, a: Attr): Attrs {
    Attrs(
      if a.id == NAME && SingleString(a.values).Some? then SingleString(a.values) else p.name,
      if a.id == VENDOR && SingleString(a.values).Some? then SingleString(a.values) else p.vendor,
      if a.id == AVAILABLE && SingleBool(a.values).Some? then SingleBool(a.values).value else p.available,
      if a.id == SAMPLE_RATE && FirstPositive(a.values).Some? then FirstPositive(a.values).value else p.sampleRate,
      if a.id == STREAM_TYPE && SingleInt(a.values).Some?
      then SingleInt(a.values).value % 0x1_0000_0000 else p.streamType,
      if a.id == MOUNT_MATRIX then MountFrom(p.mount, a.values) else p.mount)
  }

  function ApplyAll(p: Attrs, attrs: seq<Attr>): Attrs {
    if attrs == [] then p
    else ApplyAttr(ApplyAll(p, attrs[..|attrs| - 1]), attrs[|attrs| - 1])
  }

  lemma {:induction false} ApplyConcat(p: Attrs, xs: seq<Attr>, ys: seq<Attr>)
    ensures ApplyAll(p, xs + ys) == ApplyAll(ApplyAll(p, xs), ys)
  {
    if ys == [] {
      assert xs + ys == xs;
    } else {
      var n := |ys| - 1;
      ApplyConcat(p, xs, ys[..n]);
      assert (xs + ys)[..|xs + ys| - 1] == xs + ys[..n];
    }
  }

  lemma ApplyOne(p: Attrs, a: Attr)
    ensures ApplyAll(p, [a]) == ApplyAttr(p, a)
  {
  }

  // ---------------------------------------------------------------------
  // Order does not matter as long as no attribute is reported twice
  // ---------------------------------------------------------------------

  predicate DistinctIds(attrs: seq<Attr>) {
    forall i, j :: 0 <= i < j < |attrs| ==> attrs[i].id != attrs[j].id
  }

  lemma AttrsCommute(p: Attrs, a: Attr, b: Attr)
    requires a.id != b.id
    ensures ApplyAttr(ApplyAttr(p, a), b) == ApplyAttr(ApplyAttr(p, b), a)
  {
  }

  /** An attribute moves to the front past attributes of other ids. */
  lemma {:induction false} MoveToFront(p: Attrs, xs: seq<Attr>, a: Attr)
    requires forall x <- xs :: x.id != a.id
    ensures ApplyAll(p, xs + [a]) == ApplyAll(ApplyAttr(p, a), xs)
  {
    assert (xs + [a])[..|xs|] == xs;
    if xs != [] {
      var n := |xs| - 1;
      MoveToFront(p, xs[..n], a);
      assert (xs[..n] + [a])[..n] == xs[..n];
      AttrsCommute(ApplyAll(p, xs[..n]), xs[n], a);
    }
  }

  /** For attribute lists without repeated ids every order gives the same sensor. */
  lemma {:induction false} OrderIndependence(p: Attrs, xs: seq<Attr>, ys: seq<Attr>)
    requires multiset(xs) == multiset(ys)
    requires DistinctIds(xs)
    ensures ApplyAll(p, xs) == ApplyAll(p, ys)
    decreases |xs|
  {
    if xs == [] {
      assert |ys| == |multiset(ys)| == 0;
    } else {
      var before, after := SplitAround(xs, ys);
      PullHead(p, xs);
      PullFirst(p, before, xs[0], after);
      OrderIndependence(ApplyAttr(p, xs[0]), xs[1..], before + after);
    }
  }

  lemma PullHead(p: Attrs, xs: seq<Attr>)
    requires xs != []
    ensures ApplyAll(p, xs) == ApplyAll(ApplyAttr(p, xs[0]), xs[1..])
  {
    ApplyConcat(p, [xs[0]], xs[1..]);
    ApplyOne(p, xs[0]);
    assert [xs[0]] + xs[1..] == xs;
  }

  lemma SplitAround(xs: seq<Attr>, ys: seq<Attr>) returns (before: seq<Attr>, after: seq<Attr>)
    requires xs != [] && multiset(xs) == multiset(ys) && DistinctIds(xs)
    ensures ys == before + [xs[0]] + after
    ensures multiset(xs[1..]) == multiset(before + after)
    ensures DistinctIds(xs[1..])
    ensures forall x <- before :: x.id != xs[0].id
  {
    assert xs[0] in multiset(ys);
    var k :| 0 <= k < |ys| && ys[k] == xs[0];
    before, after := ys[..k], ys[k + 1..];
    RemoveOne(xs, ys, k);
    OthersDiffer(xs, before, after);
  }

  lemma PullFirst(p: Attrs, before: seq<Attr>, a: Attr, after: seq<Attr>)
    requires forall x <- before :: x.id != a.id
    ensures ApplyAll(p, before + [a] + after) == ApplyAll(ApplyAttr(p, a), before + after)
  {
    ApplyConcat(p, before + [a], after);
    MoveToFront(p, before, a);
    ApplyConcat(ApplyAttr(p, a), before, after);
  }

  lemma OthersDiffer(xs: seq<Attr>, before: seq<Attr>, after: seq<Attr>)
    requires xs != [] && DistinctIds(xs) && multiset(xs[1..]) == multiset(before + after)
    ensures forall x <- before :: x.id != xs[0].id
  {
    forall x <- before ensures x.id != xs[0].id {
      assert x in multiset(before + after);
      assert x in multiset(xs[1..]);
      var j :| 1 <= j < |xs| && xs[j] == x;
    }
  }

  lemma RemoveOne(xs: seq<Attr>, ys: seq<Attr>, k: nat)
    requires xs != [] && multiset(xs) == multiset(ys) && k < |ys| && ys[k] == xs[0]
    ensures multiset(xs[1..]) == multiset(ys[..k] + ys[k + 1..])
  {
    assert xs == [xs[0]] + xs[1..];
    assert ys == ys[..k] + [ys[k]] + ys[k + 1..];
    var rest := multiset(ys[..k] + ys[k + 1..]);
    assert multiset(ys) == rest + multiset{ys[k]};
    assert multiset(xs) == multiset(xs[1..]) + multiset{xs[0]};
    assert rest == multiset(ys) - multiset{ys[k]};
    assert multiset(xs[1..]) == multiset(xs) - multiset{xs[0]};
  }

  // ---------------------------------------------------------------------
  // With repetitions: which occurrence decides
  // ---------------------------------------------------------------------

  /** The last of the values the selected attributes offer. */
  function LastOffer<T>(attrs: seq<Attr>, id: int, offer: seq<AttrValue> -> Option<T>): Option<T> {
    if attrs == [] then None
    else
      var a := attrs[|attrs| - 1];
      if a.id == id && offer(a.values).Some? then offer(a.values)
      else LastOffer(attrs[..|attrs| - 1], id, offer)
  }

  function OrElse<T>(o: Option<T>, d: T): T {
    match o case Some(v) => v case None => d
  }

  function LastRate(attrs: seq<Attr>): Option<real> { LastOffer(attrs, SAMPLE_RATE, FirstPositive) }
  function LastAvailable(attrs: seq<Attr>): Option<bool> { LastOffer(attrs, AVAILABLE, SingleBool) }
  function LastStream(attrs: seq<Attr>): Option<nat> { LastOffer(attrs, STREAM_TYPE, SingleInt) }
  function LastName(attrs: seq<Attr>): Option<string> { LastOffer(attrs, NAME, SingleString) }
  function LastVendor(attrs: seq<Attr>): Option<string> { LastOffer(attrs, VENDOR, SingleString) }

  /**
   * For any attribute list: each scalar is the last usable value offered for it, and stays as
   * it was when there is none. The sample rate is the first positive entry of the last
   * sample-rate attribute that has a positive entry.
   */
  lemma {:induction false} LastOfferWins(p: Attrs, attrs: seq<Attr>)
    ensures var q := ApplyAll(p, attrs);
            && q.sampleRate == OrElse(LastRate(attrs), p.sampleRate)
            && q.available == OrElse(LastAvailable(attrs), p.available)
            && q.streamType == (match LastStream(attrs) case Some(i) => i % 0x1_0000_0000 case None => p.streamType)
            && q.name == (match LastName(attrs) case Some(n) => Some(n) case None => p.name)
            && q.vendor == (match LastVendor(attrs) case Some(n) => Some(n) case None => p.vendor)
  {
    if attrs != [] {
      LastOfferWins(p, attrs[..|attrs| - 1]);
    }
  }

  /** A known sample rate is positive and was listed in a sample-rate attribute. */
  predicate RateOffered(attrs: seq<Attr>, hz: real) {
    hz > 0.0 && exists a <- attrs :: a.id == SAMPLE_RATE && OffersRate(a, hz)
  }

  predicate OffersRate(a: Attr, hz: real) {
    exists v <- a.values :: v.f == Some(hz)
  }

  lemma {:induction false} RateProvenance(attrs: seq<Attr>)
    ensures LastRate(attrs).Some? ==> RateOffered(attrs, LastRate(attrs).value)
  {
    if attrs != [] {
      var n := |attrs| - 1;
      var a := attrs[n];
      if a.id == SAMPLE_RATE && FirstPositive(a.values).Some? {
        assert OffersRate(a, FirstPositive(a.values).value);
      } else {
        RateProvenance(attrs[..n]);
        if LastRate(attrs).Some? {
          var b :| b in attrs[..n] && b.id == SAMPLE_RATE && OffersRate(b, LastRate(attrs).value);
          assert b in attrs;
        }
      }
    }
  }

  /** What a single attribute says, by its number and the fields of its values. */
  lemma OneAttribute(p: Attrs, id: int, vs: seq<AttrValue>)
    ensures var q := ApplyAttr(p, Attr(id, vs));
            && q.name == (if id == 0 && |vs| == 1 && vs[0].s.Some? then vs[0].s else p.name)
            && q.vendor == (if id == 1 && |vs| == 1 && vs[0].s.Some? then vs[0].s else p.vendor)
            && q.available == (if id == 3 && |vs| == 1 && vs[0].b.Some? then vs[0].b.value else p.available)
            && (id != 6 || NoPositive(vs) ==> q.sampleRate == p.sampleRate)
            && (id == 6 ==> forall i :: 0 <= i < |vs| && NoPositive(vs[..i]) && vs[i].f.Some? && vs[i].f.value > 0.0 ==>
                  q.sampleRate == vs[i].f.value)
            && q.streamType == (if id == 16 && |vs| == 1 && vs[0].i.Some?
                                then vs[0].i.value % 0x1_0000_0000 else p.streamType)
            && (id != 20 ==> q.mount == p.mount)
  {
    if id == 6 {
      forall i | 0 <= i < |vs| && NoPositive(vs[..i]) && vs[i].f.Some? && vs[i].f.value > 0.0
        ensures FirstPositive(vs) == vs[i].f
      {
        FirstIsUnique(vs, i);
      }
    }
  }

  lemma FirstIsUnique(vs: seq<AttrValue>, i: nat)
    requires i < |vs| && NoPositive(vs[..i]) && vs[i].f.Some? && vs[i].f.value > 0.0
    ensures FirstPositive(vs) == vs[i].f
  {
    assert !NoPositive(vs) by { assert vs[i] in vs; }
    var j :| 0 <= j < |vs| && vs[j].f == FirstPositive(vs) && FirstPositive(vs).value > 0.0 && NoPositive(vs[..j]);
    if j < i {
      assert vs[j] in vs[..i];
    } else if i < j {
      assert vs[i] in vs[..j];
    }
  }

  // ---------------------------------------------------------------------
  // The mount matrix attribute
  // ---------------------------------------------------------------------

  /** A value list whose first nine entries are exactly the numbers of `m`. */
  predicate Spells(vs: seq<AttrValue>, m: Matrix) {
    |vs| >= 9 && forall j :: 0 <= j < 9 ==> vs[j].f == Some(m[j])
  }

  /** Nine given numbers replace whatever was stored; only the fallback can still change them. */
  lemma SpelledMatrixStored(before: Matrix, vs: seq<AttrValue>, m: Matrix)
    requires Spells(vs, m)
    ensures MountFrom(before, vs) == Fallback(m)
    ensures SignedPermutation(m) ==> MountFrom(before, vs) == m
    ensures m == ZERO ==> MountFrom(before, vs) == IDENTITY
  {
    assert Overlay(before, vs, 9) == m;
    if SignedPermutation(m) { SignedPermutationKept(m); }
    if m == ZERO { ZeroBecomesIdentity(); }
  }

  /** Position `j` holds the last mount matrix attribute. */
  predicate LastMount(attrs: seq<Attr>, j: nat) {
    && j < |attrs| && attrs[j].id == 20
    && forall i :: j < i < |attrs| ==> attrs[i].id != 20
  }

  /** Without a mount matrix attribute the matrix stays. */
  lemma {:induction false} MountStays(p: Attrs, attrs: seq<Attr>)
    requires forall a <- attrs :: a.id != 20
    ensures ApplyAll(p, attrs).mount == p.mount
  {
    if attrs != [] { MountStays(p, attrs[..|attrs| - 1]); }
  }

  /**
   * With one, the last decides: each entry is the number given at its position, or the one held
   * before it came; and the diagonal is set to one exactly when the truncated sum is zero.
   */
  lemma MountStored(p: Attrs, attrs: seq<Attr>, j: nat) returns (held: Matrix, given: Matrix)
    requires LastMount(attrs, j)
    ensures held == ApplyAll(p, attrs[..j]).mount
    ensures forall k :: 0 <= k < 9 ==>
              given[k] == if k < |attrs[j].values| && attrs[j].values[k].f.Some?
                          then attrs[j].values[k].f.value else held[k]
    ensures ApplyAll(p, attrs).mount ==
            if TruncatedSum(given, 9) == 0 then given[0 := 1.0][4 := 1.0][8 := 1.0] else given
  {
    var vs := attrs[j].values;
    held := ApplyAll(p, attrs[..j]).mount;
    given := Overlay(held, vs, if |vs| < 9 then |vs| else 9);
    assert attrs == attrs[..j + 1] + attrs[j + 1..] && attrs[..j + 1][..j] == attrs[..j];
    ApplyConcat(p, attrs[..j + 1], attrs[j + 1..]);
    MountStays(ApplyAll(p, attrs[..j + 1]), attrs[j + 1..]);
  }

  /** A last mount matrix attribute that spells out nine numbers. */
  lemma SpelledMount(p: Attrs, attrs: seq<Attr>, j: nat, m: Matrix)
    requires LastMount(attrs, j) && Spells(attrs[j].values, m)
    ensures SignedPermutation(m) ==> ApplyAll(p, attrs).mount == m
    ensures m == ZERO ==> ApplyAll(p, attrs).mount == IDENTITY
    ensures TruncatedSum(m, 9) != 0 ==> ApplyAll(p, attrs).mount == m
    ensures TruncatedSum(m, 9) == 0 ==> ApplyAll(p, attrs).mount == m[0 := 1.0][4 := 1.0][8 := 1.0]
  {
    var held, given := MountStored(p, attrs, j);
    assert given == m;
    if SignedPermutation(m) { SignedPermutationKept(m); }
    if m == ZERO { ZeroBecomesIdentity(); }
  }

  /** The first three columns of a 3x4 matrix given as twelve numbers, row after row or column after column. */
  function LeftOfRows(r: seq<real>): Matrix
    requires |r| == 12
  {
    [r[0], r[1], r[2], r[4], r[5], r[6], r[8], r[9], r[10]]
  }

  function LeftOfColumns(r: seq<real>): Matrix
    requires |r| == 12
  {
    [r[0], r[3], r[6], r[1], r[4], r[7], r[2], r[5], r[8]]
  }

  /**
   * Sensors report a 3x4 matrix, and the first three columns are what is meant to be used. Of a
   * matrix sent row by row the first nine numbers are those columns only if its second and third
   * row are built from two numbers, as spelled out here, which no rotation is: a mount matrix
   * sent that way is never stored as meant. Of one sent column by column they are the columns,
   * transposed.
   */
  lemma FirstNineOfTwelve(p: Attrs, vs: seq<AttrValue>, r: seq<real>)
    requires |vs| == |r| == 12 && forall j :: 0 <= j < 12 ==> vs[j].f == Some(r[j])
    ensures ApplyAttr(p, Attr(20, vs)).mount == Fallback(r[..9])
    ensures r[..9] == LeftOfRows(r) <==> r[3] == r[4] == r[5] == r[6] == r[8] == r[10] && r[7] == r[9]
    ensures Orthonormal(LeftOfRows(r)) ==> r[..9] != LeftOfRows(r)
    ensures r[..9] == Transpose(LeftOfColumns(r))
  {
    assert Overlay(p.mount, vs, 9) == r[..9];
    var left := LeftOfRows(r);
    TwoNumberRows(r[4], r[9]);
    if r[..9] == left {
      assert forall k :: 3 <= k < 9 ==> r[k] == left[k];
      assert r[3] == left[3] && r[4] == left[4] && r[5] == left[5];
      assert r[6] == left[6] && r[7] == left[7] && r[8] == left[8];
    }
  }

  /** Rows (c, c, c) and (c, d, c) are never two unit vectors at right angles. */
  lemma TwoNumberRows(c: real, d: real)
    ensures !(c * c + c * c + c * c == 1.0 && c * c + d * d + c * c == 1.0 && c * c + c * d + c * c == 0.0)
  {
  }
}

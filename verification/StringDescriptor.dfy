/**
 USB string descriptors: a two-byte header followed by at most 126 UTF-16LE code units. The encoder and
 the validator are loops over a 254-byte wire; what they must agree with is defined here on sequences
 of Unicode scalars (section 2.1 of RFC 2781).
 */
module StringDescriptor {
  import opened Basics
  import opened Options

  const WIRE_SIZE := 254
  const MAXIMUM_UNITS := 126
  const MAXIMUM_SOURCE_BYTES := 378
  const STRING_DESCRIPTOR := 3

  type Byte = b: nat | b < 256

  /** A UTF-16 code unit. */
  type Unit = u: nat | u < 0x10000

  datatype Descriptor = Descriptor(wire: seq<Byte>, size: nat)

  // ---------------------------------------------------------------- Unicode

  predicate ForbiddenScalar(c: nat) { c == 0 || 0xD800 <= c <= 0xDFFF }

  predicate EncodableScalar(c: nat) { !ForbiddenScalar(c) && c <= 0x10FFFF }

  function UnitsOf(c: nat): (u: seq<Unit>)
    requires c <= 0x10FFFF
    ensures 1 <= |u| <= 2
  {
    if c <= 0xFFFF then [c] else [0xD800 + (c - 0x10000) / 0x400, 0xDC00 + (c - 0x10000) % 0x400]
  }

  predicate AllEncodable(s: seq<nat>) { forall i :: 0 <= i < |s| ==> EncodableScalar(s[i]) }

  function Utf16(s: seq<nat>): (u: seq<Unit>)
    requires AllEncodable(s)
    ensures |s| <= |u|
  {
    if s == [] then [] else Utf16(s[..|s| - 1]) + UnitsOf(s[|s| - 1])
  }

  predicate IsHigh(u: Unit) { 0xD800 <= u <= 0xDBFF }

  predicate IsLow(u: Unit) { 0xDC00 <= u <= 0xDFFF }

  /** The scalar of a surrogate pair. */
  function Paired(high: Unit, low: Unit): (c: nat)
    requires IsHigh(high) && IsLow(low)
    ensures 0x10000 <= c <= 0x10FFFF
  {
    0x10000 + (high - 0xD800) * 0x400 + (low - 0xDC00)
  }

  /** Reads scalars from the front; a zero unit or an unpaired surrogate has no reading. */
  function DecodeUnits(u: seq<Unit>): Option<seq<nat>> {
    if u == [] then Some([])
    else if u[0] == 0 || IsLow(u[0]) then None
    else if IsHigh(u[0]) then
      if |u| < 2 || !IsLow(u[1]) then None
      else
        var rest := DecodeUnits(u[2..]);
        if rest.None? then None else Some([Paired(u[0], u[1])] + rest.value)
    else
      var rest := DecodeUnits(u[1..]);
      if rest.None? then None else Some([u[0]] + rest.value)
  }

  function Utf8Length(s: seq<nat>): nat {
    if s == [] then 0
    else
      var c := s[|s| - 1];
      Utf8Length(s[..|s| - 1]) + if c < 0x80 then 1 else if c < 0x800 then 2 else if c < 0x10000 then 3 else 4
  }

  // ---------------------------------------------------------------- descriptors

  function BytesOf(u: seq<Unit>): (b: seq<Byte>)
    ensures |b| == 2 * |u|
  {
    if u == [] then [] else BytesOf(u[..|u| - 1]) + [u[|u| - 1] % 256, u[|u| - 1] / 256]
  }

  predicate Fits(s: seq<nat>) { AllEncodable(s) && 1 <= |Utf16(s)| <= MAXIMUM_UNITS }

  /** The complete descriptor for a text that fits. */
  function WireOf(s: seq<nat>): (w: seq<Byte>)
    requires Fits(s)
  {
    [2 + 2 * |Utf16(s)|, STRING_DESCRIPTOR] + BytesOf(Utf16(s))
  }

  /** A little-endian code unit. */
  function Unit16(wire: seq<Byte>, offset: nat): Unit
    requires offset + 1 < |wire|
  {
    var low: nat, high: nat := wire[offset], wire[offset + 1];
    low + 256 * high
  }

  function UnitAt(d: Descriptor, k: nat): Unit
    requires 2 * k + 3 < |d.wire|
  {
    Unit16(d.wire, 2 * k + 2)
  }

  predicate HeaderOk(d: Descriptor) {
    && |d.wire| == WIRE_SIZE && 4 <= d.size <= WIRE_SIZE && d.size % 2 == 0
    && d.wire[0] == d.size && d.wire[1] == STRING_DESCRIPTOR
  }

  /** The code units behind the header, from the k-th on. */
  function UnitsFrom(d: Descriptor, k: nat): (u: seq<Unit>)
    requires HeaderOk(d) && 2 * k + 2 <= d.size
    ensures |u| == (d.size - 2) / 2 - k
    ensures forall i :: 0 <= i < |u| ==> u[i] == UnitAt(d, k + i)
    decreases d.size - 2 * k
  {
    if 2 * k + 2 == d.size then [] else [UnitAt(d, k)] + UnitsFrom(d, k + 1)
  }

  function Decode(d: Descriptor): Option<seq<nat>> {
    if HeaderOk(d) then DecodeUnits(UnitsFrom(d, 0)) else None
  }

  // ---------------------------------------------------------------- round trips

  lemma PairRoundTrip(high: Unit, low: Unit)
    requires IsHigh(high) && IsLow(low)
    ensures UnitsOf(Paired(high, low)) == [high, low]
  {
    var hi, lo := high - 0xD800, low - 0xDC00;
    assert (hi * 0x400 + lo) / 0x400 == hi && (hi * 0x400 + lo) % 0x400 == lo;
  }

  lemma ScalarRoundTrip(c: nat)
    requires 0x10000 <= c <= 0x10FFFF
    ensures var u := UnitsOf(c); |u| == 2 && IsHigh(u[0]) && IsLow(u[1]) && Paired(u[0], u[1]) == c
  {
  }

  /** How many units the first scalar takes. */
  function Width(u: seq<Unit>): nat
    requires u != []
  {
    if IsHigh(u[0]) then 2 else 1
  }

  predicate StartsWell(u: seq<Unit>) {
    u != [] && u[0] != 0 && !IsLow(u[0]) && (IsHigh(u[0]) ==> |u| >= 2 && IsLow(u[1]))
  }

  function First(u: seq<Unit>): nat
    requires StartsWell(u)
  {
    if IsHigh(u[0]) then Paired(u[0], u[1]) else u[0]
  }

  lemma DecodeStep(u: seq<Unit>)
    requires u != []
    ensures DecodeUnits(u) ==
            if StartsWell(u) && DecodeUnits(u[Width(u)..]).Some?
            then Some([First(u)] + DecodeUnits(u[Width(u)..]).value) else None
  {
  }

  lemma {:induction false} DecodeAppends(u: seq<Unit>, v: seq<Unit>)
    requires DecodeUnits(u).Some?
    ensures DecodeUnits(u + v) ==
            if DecodeUnits(v).Some? then Some(DecodeUnits(u).value + DecodeUnits(v).value) else None
    decreases |u|
  {
    assert DecodeUnits([]) == Some([]);
    if u != [] {
      DecodeStep(u);
      FirstOfLonger(u, v);
      DecodeStep(u + v);
      assert (u + v)[Width(u)..] == u[Width(u)..] + v;
    }
    hide DecodeUnits, First, Width, StartsWell;
    if u == [] {
      assert u + v == v;
      assert DecodeUnits(v).Some? ==> [] + DecodeUnits(v).value == DecodeUnits(v).value;
    } else {
      DecodeAppends(u[Width(u)..], v);
      if DecodeUnits(v).Some? { Reassociate([First(u)], DecodeUnits(u[Width(u)..]).value, DecodeUnits(v).value); }
    }
  }

  lemma FirstOfLonger(u: seq<Unit>, v: seq<Unit>)
    requires StartsWell(u)
    ensures StartsWell(u + v) && First(u + v) == First(u) && Width(u + v) == Width(u) <= |u|
  {
  }

  lemma DecodeOne(c: nat)
    requires EncodableScalar(c)
    ensures DecodeUnits(UnitsOf(c)) == Some([c])
  {
    var u := UnitsOf(c);
    if c > 0xFFFF {
      ScalarRoundTrip(c);
      assert u[2..] == [];
    } else {
      assert u[1..] == [];
    }
    DecodeStep(u);
    hide Paired;
    assert [c] + [] == [c];
  }

  /** Decoding the units of a text gives the text back. */
  lemma {:induction false} Utf16RoundTrip(s: seq<nat>)
    requires AllEncodable(s)
    ensures DecodeUnits(Utf16(s)) == Some(s)
  {
    if s != [] {
      Utf16RoundTrip(s[..|s| - 1]);
      DecodeOne(s[|s| - 1]);
      DecodeAppends(Utf16(s[..|s| - 1]), UnitsOf(s[|s| - 1]));
      assert s[..|s| - 1] + [s[|s| - 1]] == s;
    }
  }

  lemma Utf16Last(s: seq<nat>, c: nat)
    requires AllEncodable(s) && EncodableScalar(c)
    ensures AllEncodable(s + [c]) && Utf16(s + [c]) == Utf16(s) + UnitsOf(c)
  {
    assert (s + [c])[..|s + [c]| - 1] == s;
  }

  lemma {:induction false} Utf16Prepends(c: nat, s: seq<nat>)
    requires EncodableScalar(c) && AllEncodable(s)
    ensures AllEncodable([c] + s) && Utf16([c] + s) == UnitsOf(c) + Utf16(s)
  {
    if s == [] {
      Utf16Last([], c);
      assert [c] + s == [] + [c];
    } else {
      Utf16Prepends(c, s[..|s| - 1]);
      assert s == s[..|s| - 1] + [s[|s| - 1]];
      PrependBeforeLast(c, s[..|s| - 1], s[|s| - 1]);
    }
  }

  lemma PrependBeforeLast(c: nat, s: seq<nat>, last: nat)
    requires EncodableScalar(c) && AllEncodable(s) && EncodableScalar(last)
    requires AllEncodable([c] + s) && Utf16([c] + s) == UnitsOf(c) + Utf16(s)
    ensures AllEncodable([c] + (s + [last])) && Utf16([c] + (s + [last])) == UnitsOf(c) + Utf16(s + [last])
  {
    hide Utf16, UnitsOf, AllEncodable;
    Reassociate([c], s, [last]);
    Utf16Last(s, last);
    Utf16Last([c] + s, last);
    Reassociate(UnitsOf(c), Utf16(s), UnitsOf(last));
  }

  /** Whatever decodes is the UTF-16 form of what it decodes to. */
  lemma {:induction false} DecodeIsInverse(u: seq<Unit>)
    requires DecodeUnits(u).Some?
    ensures AllEncodable(DecodeUnits(u).value) && Utf16(DecodeUnits(u).value) == u
    decreases |u|
  {
    assert DecodeUnits([]) == Some([]) && Utf16([]) == [];
    if u != [] { DecodeStep(u); }
    hide DecodeUnits, Utf16, UnitsOf, First;
    if u != [] {
      DecodeIsInverse(u[Width(u)..]);
      FirstScalar(u);
      Utf16Prepends(First(u), DecodeUnits(u[Width(u)..]).value);
      assert u[..Width(u)] + u[Width(u)..] == u;
    }
  }

  lemma FirstScalar(u: seq<Unit>)
    requires StartsWell(u)
    ensures EncodableScalar(First(u)) && UnitsOf(First(u)) == u[..Width(u)]
  {
    if IsHigh(u[0]) {
      PairRoundTrip(u[0], u[1]);
      assert u[..2] == [u[0], u[1]];
    } else {
      OneUnit(u[0]);
      assert u[..1] == [u[0]];
    }
    hide UnitsOf, Paired;
  }

  lemma OneUnit(c: Unit)
    ensures UnitsOf(c) == [c]
  {
  }

  /** The 378-byte limit on the UTF-8 source (section 3 of RFC 3629) refuses no text that fits. */
  lemma {:induction false} SourceLimitIsHarmless(s: seq<nat>)
    requires AllEncodable(s)
    ensures Utf8Length(s) <= 3 * |Utf16(s)|
  {
    if s != [] { SourceLimitIsHarmless(s[..|s| - 1]); }
  }
}

/** The encoder and the validator of USB string descriptors, as loops over the wire. */
module StringDescriptorCodec {
  import opened Basics
  import opened Options
  import opened StringDescriptor

  // ---------------------------------------------------------------- units on the wire

  lemma {:induction false} BytesAt(u: seq<Unit>, i: nat)
    requires i < |u|
    ensures 2 * i + 1 < |BytesOf(u)| && BytesOf(u)[2 * i] == u[i] % 256 && BytesOf(u)[2 * i + 1] == u[i] / 256
  {
    if i < |u| - 1 { BytesAt(u[..|u| - 1], i); }
  }

  lemma UnitsAreEncoded(d: Descriptor, u: seq<Unit>)
    requires HeaderOk(d) && 2 + 2 * |u| == d.size && d.wire[2..d.size] == BytesOf(u)
    ensures UnitsFrom(d, 0) == u
  {
    var v, w := UnitsFrom(d, 0), d.wire[2..d.size];
    hide UnitsFrom, BytesOf, UnitAt;
    forall i | 0 <= i < |u| ensures v[i] == u[i] {
      BytesAt(u, i);
      assert d.wire[2 * i + 2] == w[2 * i] && d.wire[2 * i + 3] == w[2 * i + 1];
      UnitJoins(d, i, u[i]);
      assert v[i] == UnitAt(d, 0 + i);
    }
  }

  lemma UnitJoins(d: Descriptor, k: nat, x: Unit)
    requires 2 * k + 3 < |d.wire| && d.wire[2 * k + 2] == x % 256 && d.wire[2 * k + 3] == x / 256
    ensures UnitAt(d, k) == x
  {
  }

  lemma PairByPair(b: seq<Byte>, w: seq<Byte>, n: nat)
    requires |b| == |w| == 2 * n && forall i :: 0 <= i < n ==> SamePair(b, w, i)
    ensures b == w
  {
    forall j | 0 <= j < |b| ensures b[j] == w[j] {
      assert SamePair(b, w, j / 2);
    }
  }

  predicate SamePair(b: seq<Byte>, w: seq<Byte>, i: nat)
    requires 2 * i + 1 < |b| == |w|
  {
    b[2 * i] == w[2 * i] && b[2 * i + 1] == w[2 * i + 1]
  }

  lemma UnitSplits(d: Descriptor, k: nat)
    requires 2 * k + 3 < |d.wire|
    ensures UnitAt(d, k) % 256 == d.wire[2 * k + 2] && UnitAt(d, k) / 256 == d.wire[2 * k + 3]
  {
  }

  /** Bytes are determined by their units. */
  lemma UnitsDetermineBytes(d: Descriptor)
    requires HeaderOk(d)
    ensures d.wire[2..d.size] == BytesOf(UnitsFrom(d, 0))
  {
    var u := UnitsFrom(d, 0);
    var b, w := BytesOf(u), d.wire[2..d.size];
    hide UnitsFrom, BytesOf, UnitAt;
    forall i | 0 <= i < |u| ensures SamePair(b, w, i) {
      assert u[i] == UnitAt(d, 0 + i);
      UnitSplits(d, i);
      BytesAt(u, i);
      assert d.wire[2 * i + 2] == w[2 * i] && d.wire[2 * i + 3] == w[2 * i + 1];
    }
    PairByPair(b, w, |u|);
  }

  lemma UnitsAdvance(d: Descriptor, k: nat, n: nat)
    requires HeaderOk(d) && 2 * (k + n) + 2 <= d.size
    ensures UnitsFrom(d, k)[n..] == UnitsFrom(d, k + n)
  {
  }

  // ---------------------------------------------------------------- validation

  /** The units from the k-th on have a reading. */
  predicate Readable(d: Descriptor, k: nat)
    requires HeaderOk(d) && 2 * k + 2 <= d.size
  {
    DecodeUnits(UnitsFrom(d, k)).Some?
  }

  lemma ReadStep(d: Descriptor, k: nat)
    requires HeaderOk(d) && 2 * k + 2 < d.size
    ensures var unit := UnitAt(d, k);
            Readable(d, k) <==>
            if unit == 0 || IsLow(unit) then false
            else if IsHigh(unit) then 2 * k + 4 < d.size && IsLow(UnitAt(d, k + 1)) && Readable(d, k + 2)
            else Readable(d, k + 1)
  {
    var u := UnitsFrom(d, k);
    DecodeStep(u);
    hide DecodeUnits, First, Unit16;
    UnitsAdvance(d, k, 1);
    if 2 * k + 4 < d.size { UnitsAdvance(d, k, 2); }
  }

  lemma ReadEnd(d: Descriptor, k: nat)
    requires HeaderOk(d) && 2 * k + 2 == d.size
    ensures Readable(d, k)
  {
  }

  /** Accepts exactly the descriptors that have a reading. */
  method Validate(d: Descriptor) returns (ok: bool)
    requires |d.wire| == WIRE_SIZE
    ensures ok <==> Decode(d).Some?
  {
    hide DecodeUnits, UnitsFrom, Unit16;
    if d.size < 4 || d.size > WIRE_SIZE || d.size % 2 != 0 || d.wire[0] != d.size || d.wire[1] != STRING_DESCRIPTOR {
      return false;
    }
    var offset := 2;
    ghost var k: nat := 0;
    while offset < d.size
      invariant offset == 2 * k + 2 <= d.size
      invariant Decode(d).Some? <==> Readable(d, k)
    {
      ReadStep(d, k);
      var unit := Unit16(d.wire, offset);
      if unit == 0 { return false; }
      if 0xD800 <= unit <= 0xDBFF {
        if offset + 3 >= d.size { return false; }
        var low := Unit16(d.wire, offset + 2);
        if low < 0xDC00 || low > 0xDFFF { return false; }
        offset, k := offset + 2, k + 1;
      } else if 0xDC00 <= unit <= 0xDFFF {
        return false;
      }
      offset, k := offset + 2, k + 1;
    }
    ReadEnd(d, k);
    return true;
  }

  /** A valid descriptor is the encoding of the text that it decodes to, and of no other. */
  lemma ValidDescriptorsAreEncodings(d: Descriptor)
    requires Decode(d).Some?
    ensures Fits(Decode(d).value) && d.wire[..d.size] == WireOf(Decode(d).value)
  {
    var u := UnitsFrom(d, 0);
    UnitsDetermineBytes(d);
    DecodeIsInverse(u);
    WireFromParts(Decode(d).value, u, d);
  }

  lemma WireFromParts(s: seq<nat>, u: seq<Unit>, d: Descriptor)
    requires HeaderOk(d) && AllEncodable(s) && u == Utf16(s) && |u| == (d.size - 2) / 2 && d.wire[2..d.size] == BytesOf(u)
    ensures Fits(s) && d.wire[..d.size] == WireOf(s)
  {
    hide Utf16, BytesOf, AllEncodable;
    var w, b := d.wire[..d.size], BytesOf(u);
    assert |w| == 2 + |b|;
    forall j | 0 <= j < |w| ensures w[j] == WireOf(s)[j] {
      if j >= 2 { assert w[j] == d.wire[2..d.size][j - 2]; }
    }
  }

  /** The encoding of a text that fits is a valid descriptor for that text. */
  lemma EncodingsDecode(s: seq<nat>, d: Descriptor)
    requires Fits(s) && |d.wire| == WIRE_SIZE && d.size == |WireOf(s)| && d.wire[..d.size] == WireOf(s)
    ensures HeaderOk(d) && Decode(d) == Some(s)
  {
    var w := WireOf(s);
    assert d.wire[0] == d.wire[..d.size][0] == w[0] && d.wire[1] == d.wire[..d.size][1] == w[1];
    assert d.wire[2..d.size] == d.wire[..d.size][2..] == BytesOf(Utf16(s));
    UnitsAreEncoded(d, Utf16(s));
    Utf16RoundTrip(s);
  }

  // ---------------------------------------------------------------- encoding

  lemma {:induction false} PrefixFits(s: seq<nat>, i: nat)
    requires AllEncodable(s) && i <= |s|
    ensures AllEncodable(s[..i]) && |Utf16(s[..i])| <= |Utf16(s)|
    decreases |s|
  {
    if i < |s| {
      PrefixFits(s[..|s| - 1], i);
      assert s[..|s| - 1][..i] == s[..i];
    } else {
      assert s[..i] == s;
    }
  }

  lemma OneMoreScalar(s: seq<nat>, i: nat)
    requires i < |s| && AllEncodable(s[..i]) && EncodableScalar(s[i])
    ensures AllEncodable(s[..i + 1]) && Utf16(s[..i + 1]) == Utf16(s[..i]) + UnitsOf(s[i])
  {
    assert s[..i + 1] == s[..i] + [s[i]];
    assert s[..i + 1][..i] == s[..i];
  }

  lemma BytesLast(u: seq<Unit>, x: Unit)
    ensures BytesOf(u + [x]) == BytesOf(u) + [x % 256, x / 256]
  {
    assert (u + [x])[..|u + [x]| - 1] == u;
  }

  lemma {:induction false} BytesAppend(u: seq<Unit>, v: seq<Unit>)
    ensures BytesOf(u + v) == BytesOf(u) + BytesOf(v)
  {
    assert BytesOf([]) == [];
    hide BytesOf;
    if v == [] {
      assert u + v == u;
    } else {
      var init, last := v[..|v| - 1], v[|v| - 1];
      BytesAppend(u, init);
      BytesLast(init, last);
      BytesLast(u + init, last);
      assert v == init + [last] && u + v == u + init + [last];
      Reassociate(BytesOf(u), BytesOf(init), [last % 256, last / 256]);
    }
  }

  method PutUnit(wire: array<Byte>, offset: nat, unit: Unit)
    requires wire.Length == WIRE_SIZE && offset + 2 <= WIRE_SIZE
    modifies wire
    ensures forall j :: 0 <= j < WIRE_SIZE && (j < offset || offset + 2 <= j) ==> wire[j] == old(wire[j])
    ensures wire[offset..offset + 2] == BytesOf([unit])
  {
    wire[offset] := unit % 256;
    wire[offset + 1] := unit / 256;
    assert [unit][..0] == [];
  }

  /** The wire holds the first i scalars, and zeros behind them. */
  ghost predicate Written(wire: array<Byte>, s: seq<nat>, i: nat, offset: nat)
    requires wire.Length == WIRE_SIZE && i <= |s|
    reads wire
  {
    && AllEncodable(s[..i]) && offset == 2 + 2 * |Utf16(s[..i])| && offset <= WIRE_SIZE
    && wire[2..offset] == BytesOf(Utf16(s[..i]))
    && (forall j :: offset <= j < WIRE_SIZE ==> wire[j] == 0)
  }

  method PutScalar(wire: array<Byte>, s: seq<nat>, i: nat, offset: nat) returns (next: nat)
    requires wire.Length == WIRE_SIZE && i < |s| && Written(wire, s, i, offset)
    requires EncodableScalar(s[i]) && offset + 2 * |UnitsOf(s[i])| <= WIRE_SIZE
    modifies wire
    ensures next == offset + 2 * |UnitsOf(s[i])| && Written(wire, s, i + 1, next)
  {
    var u := UnitsOf(s[i]);
    OneMoreScalar(s, i);
    BytesAppend(Utf16(s[..i]), u);
    hide Utf16, BytesOf, UnitsOf, EncodableScalar, AllEncodable;
    next := PutUnits(wire, offset, u);
    Joined(old(wire[..]), wire[..], offset, next, BytesOf(Utf16(s[..i])), BytesOf(u));
  }

  /** A block written behind what is already there. */
  lemma Joined(w: seq<Byte>, w': seq<Byte>, offset: nat, next: nat, before: seq<Byte>, more: seq<Byte>)
    requires |w| == |w'| && 2 <= offset <= next <= |w| && w[2..offset] == before && w'[offset..next] == more
    requires forall j :: 0 <= j < |w| && (j < offset || next <= j) ==> w'[j] == w[j]
    ensures w'[2..next] == before + more
  {
    assert w'[2..offset] == w[2..offset];
    assert w'[2..next] == w'[2..offset] + w'[offset..next];
  }

  method PutUnits(wire: array<Byte>, offset: nat, u: seq<Unit>) returns (next: nat)
    requires wire.Length == WIRE_SIZE && 1 <= |u| <= 2
    requires offset + 2 * |u| <= WIRE_SIZE
    modifies wire
    ensures next == offset + 2 * |u|
    ensures forall j :: 0 <= j < WIRE_SIZE && (j < offset || next <= j) ==> wire[j] == old(wire[j])
    ensures wire[offset..next] == BytesOf(u)
  {
    hide BytesOf;
    PutUnit(wire, offset, u[0]);
    next := offset + 2;
    if |u| == 1 {
      assert u == [u[0]];
      return;
    }
    ghost var first := wire[offset..next];
    PutUnit(wire, next, u[1]);
    next := next + 2;
    BytesAppend([u[0]], [u[1]]);
    assert u == [u[0]] + [u[1]];
    assert wire[offset..offset + 2] == first;
    assert wire[offset..next] == first + wire[offset + 2..next];
  }

  /** Succeeds exactly when the text takes 1 to 126 code units and no forbidden scalar, and then holds that text. */
  method Encode(s: seq<nat>) returns (r: Option<Descriptor>)
    ensures r.Some? <==> Fits(s)
    ensures r.Some? ==> HeaderOk(r.value) && r.value.wire[..r.value.size] == WireOf(s) && Decode(r.value) == Some(s)
    ensures r.Some? ==> forall j :: r.value.size <= j < WIRE_SIZE ==> r.value.wire[j] == 0
  {
    if Utf8Length(s) > MAXIMUM_SOURCE_BYTES {
      if AllEncodable(s) { SourceLimitIsHarmless(s); }
      return None;
    }
    if s == [] { return None; }
    var wire := new Byte[WIRE_SIZE](_ => 0);
    var offset: nat := 2;
    for i := 0 to |s|
      invariant Written(wire, s, i, offset)
    {
      if ForbiddenScalar(s[i]) || s[i] > 0x10FFFF { return None; }
      if offset + 2 * |UnitsOf(s[i])| > WIRE_SIZE {
        OneMoreScalar(s, i);
        if AllEncodable(s) { PrefixFits(s, i + 1); }
        return None;
      }
      offset := PutScalar(wire, s, i, offset);
    }
    assert s[..|s|] == s;
    r := Seal(wire, s, offset);
  }

  method Seal(wire: array<Byte>, ghost s: seq<nat>, size: nat) returns (r: Option<Descriptor>)
    requires wire.Length == WIRE_SIZE && s != [] && Written(wire, s, |s|, size) && s[..|s|] == s
    modifies wire
    ensures r.Some? && Fits(s) && HeaderOk(r.value) && Decode(r.value) == Some(s)
    ensures r.value.wire[..r.value.size] == WireOf(s)
    ensures forall j :: r.value.size <= j < WIRE_SIZE ==> r.value.wire[j] == 0
  {
    wire[0], wire[1] := size, STRING_DESCRIPTOR;
    var d := Descriptor(wire[..], size);
    assert d.wire[..size] == wire[..2] + wire[2..size];
    EncodingsDecode(s, d);
    var ok := Validate(d);
    if !ok { return None; }
    return Some(d);
  }
}

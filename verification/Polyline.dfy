/** Encoded polylines (packages/maps/src/polyline.ts), the Google Encoded Polyline Algorithm Format. */
module Polyline {
  import opened Machine

  /** A coordinate pair in GeoJSON order: longitude first. */
  datatype Point<T> = Point(lon: T, lat: T)

  /** A point on the integer grid of a precision. */
  type GridPoint = Point<int>

  // ---------------------------------------------------------------- encoding

  /** The sign moved to the lowest bit, in 32-bit arithmetic. */
  function ZigZag(value: int): int {
    if value < 0 then -ToInt32(2 * value) - 1 else ToInt32(2 * value)
  }

  /** Five bits at a time, lowest first, each shifted into the printable range. */
  function Chunks(v: int): Text
    decreases v
  {
    if v >= 0x20 then [0x20 + v % 0x20 + 63] + Chunks(v / 0x20) else [ToUint16(v + 63)]
  }

  function EncodedValue(value: int): Text {
    Chunks(ZigZag(value))
  }

  function EncodedFrom(points: seq<GridPoint>, prevLat: int, prevLng: int): Text
    decreases |points|
  {
    if points == [] then []
    else
      var p := points[0];
      EncodedValue(p.lat - prevLat) + EncodedValue(p.lon - prevLng) + EncodedFrom(points[1..], p.lat, p.lon)
  }

  method EncodeValue(value: int) returns (out: Text)
    ensures out == EncodedValue(value)
  {
    var v := ZigZag(value);
    out := [];
    while v >= 0x20
      invariant out + Chunks(v) == EncodedValue(value)
      decreases v
    {
      assert out + ([0x20 + v % 0x20 + 63] + Chunks(v / 0x20)) == (out + [0x20 + v % 0x20 + 63]) + Chunks(v / 0x20);
      out := out + [0x20 + v % 0x20 + 63];
      v := v / 0x20;
    }
    out := out + [ToUint16(v + 63)];
  }

  /** 10 to the power of the precision. */
  function Factor(precision: nat): (f: int)
    ensures f >= 1
  {
    if precision == 0 then 1 else 10 * Factor(precision - 1)
  }

  /** One coordinate in units of the last decimal, and back. */
  function ToGrid(x: real, factor: int): int {
    Round(x * factor as real)
  }

  function FromGrid(n: int, factor: int): real
    requires factor >= 1
  {
    n as real / factor as real
  }

  function Quantised(p: Point<real>, precision: nat): GridPoint {
    Point(ToGrid(p.lon, Factor(precision)), ToGrid(p.lat, Factor(precision)))
  }

  function Quantise(coordinates: seq<Point<real>>, precision: nat): (r: seq<GridPoint>)
    ensures |r| == |coordinates|
    ensures forall i :: 0 <= i < |r| ==> r[i] == Quantised(coordinates[i], precision)
  {
    seq(|coordinates|, i requires 0 <= i < |coordinates| => Quantised(coordinates[i], precision))
  }

  lemma {:induction false} EncodedStep(out: Text, points: seq<GridPoint>, prevLat: int, prevLng: int)
    requires points != []
    ensures var p := points[0];
            out + EncodedFrom(points, prevLat, prevLng) ==
            out + EncodedValue(p.lat - prevLat) + EncodedValue(p.lon - prevLng) + EncodedFrom(points[1..], p.lat, p.lon)
  {
    hide EncodedValue;
    var p := points[0];
    var a, b := EncodedValue(p.lat - prevLat), EncodedValue(p.lon - prevLng);
    var rest := EncodedFrom(points[1..], p.lat, p.lon);
    Joined(out, a, b, rest);
  }

  lemma {:induction false} Joined<T>(out: seq<T>, a: seq<T>, b: seq<T>, rest: seq<T>)
    ensures out + (a + b + rest) == out + a + b + rest
  {
  }

  method EncodePolyline(coordinates: seq<Point<real>>, precision: nat) returns (out: Text)
    ensures out == EncodedFrom(Quantise(coordinates, precision), 0, 0)
  {
    if |coordinates| == 0 {
      return [];
    }
    var factor := Factor(precision);
    ghost var grid := Quantise(coordinates, precision);
    out := [];
    var prevLat, prevLng := 0, 0;
    var i := 0;
    while i < |coordinates|
      invariant 0 <= i <= |coordinates|
      invariant out + EncodedFrom(grid[i..], prevLat, prevLng) == EncodedFrom(grid, 0, 0)
    {
      var latE := ToGrid(coordinates[i].lat, factor);
      var lngE := ToGrid(coordinates[i].lon, factor);
      var a := EncodeValue(latE - prevLat);
      var b := EncodeValue(lngE - prevLng);
      EncodedStep(out, grid[i..], prevLat, prevLng);
      assert grid[i..][0] == Point(lngE, latE) && grid[i..][1..] == grid[i + 1..];
      out := out + a;
      out := out + b;
      prevLat := latE;
      prevLng := lngE;
      i := i + 1;
    }
  }

  // ---------------------------------------------------------------- decoding

  /** `(byte & 0x1f) << shift` as a 32-bit pattern; the shift count is taken modulo 32. */
  function ShiftedChunk(byte: int, shift: nat): nat {
    ToUint32(byte % 0x20 * Pow2(shift % 32))
  }

  /**
    The inner loop: or the chunks together until one has no continuation bit. Past the end of the text
    `charCodeAt` is NaN, which contributes no bit and stops the loop.
    Returns the bit pattern and the index after the last unit read.
   */
  function ReadChunks(s: Text, i: nat, result: nat, shift: nat): (r: (nat, nat))
    ensures r.1 > i
    decreases |s| - i
  {
    if i >= |s| then (result, i + 1)
    else
      var byte := s[i] as int - 63;
      var result' := BitOr(result, ShiftedChunk(byte, shift));
      if byte >= 0x20 then ReadChunks(s, i + 1, result', shift + 5) else (result', i + 1)
  }

  /** `result & 1 ? ~(result >> 1) : result >> 1`, with the arithmetic shift. */
  function UnZigZag(result: nat): int {
    var half := ToInt32(result) / 2;
    if result % 2 == 1 then -half - 1 else half
  }

  function DecodedFrom(s: Text, i: nat, lat: int, lng: int): seq<GridPoint>
    decreases |s| - i
  {
    if i >= |s| then []
    else
      var (a, j) := ReadChunks(s, i, 0, 0);
      var (b, k) := ReadChunks(s, j, 0, 0);
      [Point(lng + UnZigZag(b), lat + UnZigZag(a))] + DecodedFrom(s, k, lat + UnZigZag(a), lng + UnZigZag(b))
  }

  function OffGrid(p: GridPoint, precision: nat): Point<real> {
    Point(FromGrid(p.lon, Factor(precision)), FromGrid(p.lat, Factor(precision)))
  }

  /** The decoded line itself, as `DecodePolyline` returns it. */
  function Line(s: Text, precision: nat): (r: seq<Point<real>>) {
    var grid := DecodedFrom(s, 0, 0, 0);
    seq(|grid|, i requires 0 <= i < |grid| => OffGrid(grid[i], precision))
  }

  method ReadValue(encoded: Text, start: nat) returns (result: nat, index: nat)
    ensures (result, index) == ReadChunks(encoded, start, 0, 0)
  {
    result := 0;
    index := start;
    var shift := 0;
    var more := true;
    while more
      invariant more ==> ReadChunks(encoded, index, result, shift) == ReadChunks(encoded, start, 0, 0)
      invariant !more ==> (result, index) == ReadChunks(encoded, start, 0, 0)
      decreases more, |encoded| - index
    {
      if index < |encoded| {
        var byte := encoded[index] as int - 63;
        result := BitOr(result, ShiftedChunk(byte, shift));
        more := byte >= 0x20;
      } else {
        more := false;
      }
      index := index + 1;
      shift := shift + 5;
    }
  }

  lemma {:induction false} Peel<T>(s: seq<T>, n: nat, head: T, rest: seq<T>)
    requires n <= |s| && s[n..] == [head] + rest
    ensures n < |s| && s[n] == head && s[n + 1..] == rest
  {
    assert s[n..][0] == head;
    assert s[n..][1..] == rest;
  }

  method DecodePolyline(encoded: Text, precision: nat) returns (coordinates: seq<Point<real>>)
    ensures coordinates == Line(encoded, precision)
  {
    if |encoded| == 0 {
      return [];
    }
    var factor := Factor(precision);
    ghost var grid := DecodedFrom(encoded, 0, 0, 0);
    coordinates := [];
    var index, lat, lng := 0, 0, 0;
    while index < |encoded|
      invariant |coordinates| <= |grid| && grid[|coordinates|..] == DecodedFrom(encoded, index, lat, lng)
      invariant forall n :: 0 <= n < |coordinates| ==> coordinates[n] == OffGrid(grid[n], precision)
      decreases |encoded| - index
    {
      ghost var rest := DecodedFrom(encoded, index, lat, lng);
      var result, next := ReadValue(encoded, index);
      lat := lat + UnZigZag(result);
      result, index := ReadValue(encoded, next);
      lng := lng + UnZigZag(result);
      Peel(grid, |coordinates|, Point(lng, lat), DecodedFrom(encoded, index, lat, lng));
      coordinates := coordinates + [Point(FromGrid(lng, factor), FromGrid(lat, factor))];
    }
    assert grid[|coordinates|..] == [];
  }

  // ---------------------------------------------------------------- the round trip

  /** A delta the 32-bit zig-zag represents. */
  predicate Fits(delta: int) {
    -0x4000_0000 <= delta < 0x4000_0000
  }

  predicate DeltasFit(points: seq<GridPoint>, prevLat: int, prevLng: int)
    decreases |points|
  {
    points == [] || (Fits(points[0].lat - prevLat) && Fits(points[0].lon - prevLng) &&
                     DeltasFit(points[1..], points[0].lat, points[0].lon))
  }

  lemma {:induction false} ZigZagInverse(value: int)
    requires Fits(value)
    ensures 0 <= ZigZag(value) < TWO_31 && UnZigZag(ZigZag(value)) == value
  {
  }

  /** One chunk adds its five bits above those already read. */
  lemma {:induction false} ChunkAdds(byte: int, shift: nat, result: nat, c: nat)
    requires c == byte % 0x20
    requires shift < 32 && result < Pow2(shift) && c * Pow2(shift) < TWO_31
    ensures BitOr(result, ShiftedChunk(byte, shift)) == result + c * Pow2(shift)
  {
    hide ToUint32;
    hide BitOr;
    hide Pow2;
    SmallUint32(c * Pow2(shift));
    BitOrDisjoint(result, c, shift);
  }

  lemma {:induction false} Pow2Fold(shift: nat)
    ensures Pow2(shift + 5) == 0x20 * Pow2(shift)
  {
    assert Pow2(shift + 5) == 2 * Pow2(shift + 4) == 4 * Pow2(shift + 3) == 8 * Pow2(shift + 2) == 16 * Pow2(shift + 1);
  }

  /** Five bits of `v` on top of `result`, at the place `p`, and the rest of `v` at the next place. */
  lemma {:induction false} SplitScaled(v: nat, p: nat, next: nat, result: nat)
    requires next == 0x20 * p && result < p
    ensures v % 0x20 * p <= v * p && v / 0x20 * next <= v * p
    ensures result + v % 0x20 * p < next
    ensures result + v % 0x20 * p + v / 0x20 * next == result + v * p
  {
    Spread(v, v % 0x20, v / 0x20, p, next);
    BelowNext(v % 0x20, p, result);
  }

  lemma {:induction false} Spread(v: nat, c: nat, rest: nat, p: nat, next: nat)
    requires v == c + 0x20 * rest && next == 0x20 * p
    ensures v * p == c * p + rest * next && c * p >= 0 && rest * next >= 0
  {
    assert rest * next == rest * 0x20 * p;
  }

  lemma {:induction false} BelowNext(c: nat, p: nat, result: nat)
    requires c < 0x20 && result < p
    ensures result + c * p < 0x20 * p
  {
    assert c * p <= 31 * p;
  }

  lemma {:induction false} ShiftBound(v: nat, shift: nat)
    requires v >= 1 && v * Pow2(shift) < TWO_31
    ensures shift <= 30
  {
    PowerOf31();
    hide Pow2;
    AtLeastOnce(v, Pow2(shift));
    if 31 <= shift {
      Pow2Monotone(31, shift);
    }
  }

  lemma {:induction false} AtLeastOnce(v: nat, p: nat)
    requires v >= 1
    ensures v * p >= p
  {
  }

  lemma {:induction false} PowerOf31()
    ensures Pow2(31) == TWO_31
  {
    Pow2Fold(0);
    Pow2Fold(5);
    Pow2Fold(10);
    Pow2Fold(15);
    Pow2Fold(20);
    Pow2Fold(25);
    assert Pow2(31) == 2 * Pow2(30);
  }

  lemma {:induction false} FirstChunk(s: Text, i: nat, v: nat)
    requires i + |Chunks(v)| <= |s| && s[i..i + |Chunks(v)|] == Chunks(v)
    ensures i < |s| && (s[i] as int - 63) % 0x20 == v % 0x20
    ensures s[i] as int - 63 >= 0x20 <==> v >= 0x20
    ensures v >= 0x20 ==> |Chunks(v)| == 1 + |Chunks(v / 0x20)|
    ensures v >= 0x20 ==> s[i + 1..i + 1 + |Chunks(v / 0x20)|] == Chunks(v / 0x20)
  {
    assert |Chunks(v)| >= 1;
    assert s[i] == s[i..i + |Chunks(v)|][0] == Chunks(v)[0];
    if v >= 0x20 {
      assert Chunks(v)[1..] == Chunks(v / 0x20);
      assert s[i + 1..i + 1 + |Chunks(v / 0x20)|] == s[i..i + |Chunks(v)|][1..];
    }
  }

  /** Reading back the chunks of `v` leaves exactly `v` above the bits already there. */
  lemma {:induction false} ReadBack(s: Text, i: nat, v: nat, result: nat, shift: nat)
    requires i + |Chunks(v)| <= |s| && s[i..i + |Chunks(v)|] == Chunks(v)
    requires shift <= 30 && result < Pow2(shift) && v * Pow2(shift) < TWO_31
    ensures ReadChunks(s, i, result, shift) == (result + v * Pow2(shift), i + |Chunks(v)|)
    decreases v
  {
    hide *;
    var p, next := Pow2(shift), Pow2(shift + 5);
    Pow2Positive(shift);
    Pow2Fold(shift);
    SplitScaled(v, p, next, result);
    FirstChunk(s, i, v);
    var byte := s[i] as int - 63;
    ChunkAdds(byte, shift, result, v % 0x20);
    ReadsOne(s, i, result, shift, byte);
    if v >= 0x20 {
      ShiftBound(v / 0x20, shift + 5);
      ReadBack(s, i + 1, v / 0x20, result + v % 0x20 * p, shift + 5);
    } else {
      OneChunk(v);
    }
  }

  lemma {:induction false} ReadsOne(s: Text, i: nat, result: nat, shift: nat, byte: int)
    requires i < |s| && byte == s[i] as int - 63
    ensures var result' := BitOr(result, ShiftedChunk(byte, shift));
            ReadChunks(s, i, result, shift) ==
            if byte >= 0x20 then ReadChunks(s, i + 1, result', shift + 5) else (result', i + 1)
  {
  }

  lemma {:induction false} OneChunk(v: nat)
    requires v < 0x20
    ensures |Chunks(v)| == 1
  {
  }

  /** A value written anywhere in a text is read back from there. */
  lemma {:induction false} ValueReadBack(s: Text, i: nat, value: int)
    requires Fits(value)
    requires i + |EncodedValue(value)| <= |s| && s[i..i + |EncodedValue(value)|] == EncodedValue(value)
    ensures ReadChunks(s, i, 0, 0).1 == i + |EncodedValue(value)|
    ensures UnZigZag(ReadChunks(s, i, 0, 0).0) == value
  {
    ZigZagInverse(value);
    ReadBack(s, i, ZigZag(value), 0, 0);
  }

  lemma {:induction false} Cut<T>(s: seq<T>, i: nat, a: seq<T>, b: seq<T>, rest: seq<T>)
    requires i <= |s| && s[i..] == a + b + rest
    ensures i + |a| + |b| <= |s|
    ensures s[i..i + |a|] == a && s[i + |a|..i + |a| + |b|] == b && s[i + |a| + |b|..] == rest
  {
    var t := s[i..];
    assert t[..|a|] == a && t[|a|..|a| + |b|] == b && t[|a| + |b|..] == rest;
    assert s[i..i + |a|] == t[..|a|] && s[i + |a|..i + |a| + |b|] == t[|a|..|a| + |b|];
    assert s[i + |a| + |b|..] == t[|a| + |b|..];
  }

  /** The two values of a point are read back one after the other. */
  lemma {:induction false} PointReadBack(s: Text, i: nat, lat: int, lng: int, rest: Text)
    requires Fits(lat) && Fits(lng)
    requires i <= |s| && s[i..] == EncodedValue(lat) + EncodedValue(lng) + rest
    ensures var k := i + |EncodedValue(lat)| + |EncodedValue(lng)|;
            var (a, j) := ReadChunks(s, i, 0, 0);
            i < |s| && k <= |s| && s[k..] == rest && UnZigZag(a) == lat &&
            ReadChunks(s, j, 0, 0).1 == k && UnZigZag(ReadChunks(s, j, 0, 0).0) == lng
  {
    hide *;
    Cut(s, i, EncodedValue(lat), EncodedValue(lng), rest);
    NotNothing(lat);
    ValueReadBack(s, i, lat);
    ValueReadBack(s, i + |EncodedValue(lat)|, lng);
  }

  lemma {:induction false} NotNothing(value: int)
    ensures EncodedValue(value) != []
  {
  }

  lemma {:induction false} EncodedHead(points: seq<GridPoint>, lat: int, lng: int)
    requires points != []
    ensures EncodedFrom(points, lat, lng) ==
            EncodedValue(points[0].lat - lat) + EncodedValue(points[0].lon - lng) +
            EncodedFrom(points[1..], points[0].lat, points[0].lon)
  {
  }

  lemma {:induction false} DecodedHead(s: Text, i: nat, lat: int, lng: int, p: GridPoint, k: nat)
    requires i < |s|
    requires var (a, j) := ReadChunks(s, i, 0, 0);
             UnZigZag(a) == p.lat - lat && ReadChunks(s, j, 0, 0).1 == k &&
               UnZigZag(ReadChunks(s, j, 0, 0).0) == p.lon - lng
    ensures DecodedFrom(s, i, lat, lng) == [p] + DecodedFrom(s, k, p.lat, p.lon)
  {
    hide ReadChunks;
    hide UnZigZag;
  }

  /** The first point of an encoded list is the first one decoded, and the rest follows at `k`. */
  lemma {:induction false} HeadReadBack(s: Text, i: nat, points: seq<GridPoint>, lat: int, lng: int) returns (k: nat)
    requires points != [] && Fits(points[0].lat - lat) && Fits(points[0].lon - lng)
    requires i <= |s| && s[i..] == EncodedFrom(points, lat, lng)
    ensures k <= |s| && s[k..] == EncodedFrom(points[1..], points[0].lat, points[0].lon)
    ensures DecodedFrom(s, i, lat, lng) == [points[0]] + DecodedFrom(s, k, points[0].lat, points[0].lon)
  {
    hide *;
    var p := points[0];
    EncodedHead(points, lat, lng);
    PointReadBack(s, i, p.lat - lat, p.lon - lng, EncodedFrom(points[1..], p.lat, p.lon));
    k := i + |EncodedValue(p.lat - lat)| + |EncodedValue(p.lon - lng)|;
    DecodedHead(s, i, lat, lng, p, k);
  }

  lemma {:induction false} GridRoundTripFrom(s: Text, i: nat, points: seq<GridPoint>, lat: int, lng: int)
    requires DeltasFit(points, lat, lng)
    requires i <= |s| && s[i..] == EncodedFrom(points, lat, lng)
    ensures DecodedFrom(s, i, lat, lng) == points
    decreases |points|
  {
    if points == [] {
      assert |s[i..]| == 0;
    } else {
      var k := HeadReadBack(s, i, points, lat, lng);
      GridRoundTripFrom(s, k, points[1..], points[0].lat, points[0].lon);
      assert points == [points[0]] + points[1..];
    }
  }

  /** Whatever the text, every delta the decoder adds is one the format can carry. */
  lemma {:induction false} DecodedDeltasFit(s: Text, i: nat, lat: int, lng: int)
    ensures DeltasFit(DecodedFrom(s, i, lat, lng), lat, lng)
    decreases |s| - i
  {
    if i < |s| {
      var (a, j) := ReadChunks(s, i, 0, 0);
      var (b, k) := ReadChunks(s, j, 0, 0);
      var p := Point(lng + UnZigZag(b), lat + UnZigZag(a));
      DecodedHead(s, i, lat, lng, p, k);
      DecodedDeltasFit(s, k, p.lat, p.lon);
      UnZigZagFits(a);
      UnZigZagFits(b);
      hide ReadChunks;
      hide UnZigZag;
      hide DecodedFrom;
      hide Fits;
      assert ([p] + DecodedFrom(s, k, p.lat, p.lon))[1..] == DecodedFrom(s, k, p.lat, p.lon);
    }
  }

  lemma {:induction false} UnZigZagFits(result: nat)
    ensures Fits(UnZigZag(result))
  {
  }

  /** Decoding undoes encoding on the integer grid exactly for the lists whose deltas fit in 31 bits. */
  lemma {:induction false} GridRoundTrip(points: seq<GridPoint>)
    ensures DecodedFrom(EncodedFrom(points, 0, 0), 0, 0, 0) == points <==> DeltasFit(points, 0, 0)
  {
    if DeltasFit(points, 0, 0) {
      var s := EncodedFrom(points, 0, 0);
      assert s[0..] == s;
      GridRoundTripFrom(s, 0, points, 0, 0);
    }
    DecodedDeltasFit(EncodedFrom(points, 0, 0), 0, 0, 0);
  }

  // ---------------------------------------------------------------- past the end

  /** No bit is set by nothing. */
  lemma {:induction false} OrNothing(a: nat)
    ensures BitOr(a, 0) == a
  {
  }

  /** A chunk beyond the 32nd bit falls on the bits it would fall on 32 places lower. */
  lemma {:induction false} ShiftWraps(byte: int, shift: nat)
    ensures ShiftedChunk(byte, shift + 32) == ShiftedChunk(byte, shift)
    ensures shift <= 27 ==> ShiftedChunk(byte, shift) == byte % 32 * Pow2(shift)
  {
    if shift <= 27 {
      SmallShift(byte % 32, shift);
      hide Pow2;
    }
  }

  lemma {:induction false} SmallShift(c: nat, shift: nat)
    requires c < 32 && shift <= 27
    ensures ToUint32(c * Pow2(shift)) == c * Pow2(shift)
  {
    Pow2Monotone(shift, 27);
    PowerOf27();
    hide Pow2;
    UpTo(c, Pow2(shift), 0x800_0000);
    SmallUint32(c * Pow2(shift));
  }

  lemma {:induction false} UpTo(c: nat, p: nat, most: nat)
    requires c < 32 && p <= most
    ensures 0 <= c * p <= 31 * most
  {
  }

  lemma {:induction false} PowerOf27()
    ensures Pow2(27) == 0x800_0000
  {
    Pow2Fold(0);
    Pow2Fold(5);
    Pow2Fold(10);
    Pow2Fold(15);
    Pow2Fold(20);
    assert Pow2(27) == 2 * Pow2(26) == 4 * Pow2(25);
  }

  /** Past the end of the text the decoder reads what it would read of one more unit without bits. */
  lemma {:induction false} PaddedRead(s: Text, i: nat, result: nat, shift: nat)
    requires i <= |s|
    ensures ReadChunks(s + [63], i, result, shift) == ReadChunks(s, i, result, shift)
    decreases |s| - i
  {
    if i == |s| {
      OrNothing(result);
      assert ShiftedChunk(0, shift) == 0;
    } else {
      var byte := s[i] as int - 63;
      if byte >= 0x20 {
        PaddedRead(s, i + 1, BitOr(result, ShiftedChunk(byte, shift)), shift + 5);
      }
    }
    hide BitOr;
    hide ShiftedChunk;
  }

  /** A text that ends inside a point is decoded as if its missing bits were zero. */
  predicate EndsInside(s: Text, i: nat)
    decreases |s| - i
  {
    i > |s| || (i < |s| && EndsInside(s, ReadChunks(s, ReadChunks(s, i, 0, 0).1, 0, 0).1))
  }

  lemma {:induction false} PaddedDecode(s: Text, i: nat, lat: int, lng: int)
    requires i <= |s|
    ensures var p := DecodedFrom(s, i, lat, lng);
            DecodedFrom(s + [63], i, lat, lng) ==
            if EndsInside(s, i) then p else p + [if p == [] then Point(lng, lat) else p[|p| - 1]]
    decreases |s| - i
  {
    var s' := s + [63];
    if i == |s| {
      assert ReadChunks(s', i, 0, 0) == (0, i + 1) by {
        OrNothing(0);
        assert ShiftedChunk(0, 0) == 0;
      }
      assert DecodedFrom(s', i + 2, lat, lng) == [];
    } else {
      var (a, j) := ReadChunks(s, i, 0, 0);
      var (b, k) := ReadChunks(s, j, 0, 0);
      PaddedRead(s, i, 0, 0);
      if j <= |s| {
        PaddedRead(s, j, 0, 0);
      }
      var p := Point(lng + UnZigZag(b), lat + UnZigZag(a));
      DecodedHead(s, i, lat, lng, p, k);
      DecodedHead(s', i, lat, lng, p, k);
      assert k > |s| ==> DecodedFrom(s, k, p.lat, p.lon) == DecodedFrom(s', k, p.lat, p.lon) == [];
      hide UnZigZag;
      hide DecodedFrom;
      hide ReadChunks;
      if k <= |s| {
        PaddedDecode(s, k, p.lat, p.lon);
      }
    }
  }

  // ---------------------------------------------------------------- the format

  /** What the digits of a value stand for, five bits each, the lowest first. */
  function DigitSum(s: Text): int {
    if s == [] then 0 else (s[0] as int - 63) % 32 + 32 * DigitSum(s[1..])
  }

  /** Units 95 to 126 for all digits but the last, 63 to 94 for the last; no idle zero at the end. */
  predicate Terminated(s: Text) {
    && s != [] && (forall i :: 0 <= i < |s| - 1 ==> 95 <= s[i] <= 126)
    && 63 <= s[|s| - 1] <= 94 && (|s| > 1 ==> s[|s| - 1] > 63)
  }

  lemma {:induction false} ChunksAreDigits(v: nat)
    ensures Terminated(Chunks(v)) && DigitSum(Chunks(v)) == v
    decreases v
  {
    if v >= 0x20 {
      ChunksAreDigits(v / 0x20);
      FirstDigit(0x20 + v % 0x20 + 63, Chunks(v / 0x20));
      LastDigit(v / 0x20);
      hide DigitSum;
      hide Terminated;
    }
  }

  lemma {:induction false} FirstDigit(c: CodeUnit, rest: Text)
    requires 95 <= c <= 126 && Terminated(rest) && (|rest| == 1 ==> rest[0] > 63)
    ensures Terminated([c] + rest) && DigitSum([c] + rest) == c as int - 95 + 32 * DigitSum(rest)
  {
    var s := [c] + rest;
    assert s[1..] == rest;
    assert forall i :: 1 <= i < |s| ==> s[i] == rest[i - 1];
    hide DigitSum;
  }

  lemma {:induction false} LastDigit(v: nat)
    requires v >= 1
    ensures |Chunks(v)| == 1 ==> Chunks(v)[0] > 63
  {
    if v >= 0x20 {
      assert |Chunks(v / 0x20)| >= 1;
    }
  }

  /** A delta is written as the digits, to the base 32, of twice it, or of one less than twice its opposite. */
  lemma {:induction false} ValueIsBase32(value: int)
    requires Fits(value)
    ensures Terminated(EncodedValue(value))
    ensures DigitSum(EncodedValue(value)) == if value < 0 then -2 * value - 1 else 2 * value
  {
    ZigZagIs(value);
    ChunksAreDigits(ZigZag(value));
    hide *;
    EncodedIs(value);
  }

  lemma {:induction false} ZigZagIs(value: int)
    requires Fits(value)
    ensures ZigZag(value) == (if value < 0 then -2 * value - 1 else 2 * value) && ZigZag(value) >= 0
  {
  }

  /** A delta too wide for the format, though not for 32 bits, is written as one unit that does not stand for it. */
  lemma {:induction false} OverflowIsOneUnit(value: int)
    requires -TWO_31 <= value < TWO_31 && !Fits(value)
    ensures EncodedValue(value) ==
            [(if value < 0 then -2 * value - TWO_32 - 1 + 63 else 2 * value - TWO_32 + 63) % 0x1_0000]
  {
  }

  lemma {:induction false} EncodedIs(value: int)
    ensures EncodedValue(value) == Chunks(ZigZag(value))
  {
  }

  lemma {:induction false} NextChunk(v: nat, rest: Text)
    requires v >= 0x20 && Chunks(v / 0x20) == rest
    ensures Chunks(v) == [v % 0x20 + 95] + rest
  {
  }

  lemma {:induction false} LastChunk(v: nat)
    requires v < 0x20
    ensures Chunks(v) == [v + 63]
  {
  }

  lemma {:induction false} ExampleValue1()
    ensures EncodedValue(3850000) == [95, 112, 126, 105, 70]
  {
    EncodedIs(3850000);
    ZigZagIs(3850000);
    hide *;
    LastChunk(7);
    NextChunk(234, [70]);
    NextChunk(7519, [105, 70]);
    NextChunk(240625, [126, 105, 70]);
    NextChunk(7700000, [112, 126, 105, 70]);
  }

  lemma {:induction false} ExampleValue2()
    ensures EncodedValue(-12020000) == [126, 112, 115, 124, 85]
  {
    EncodedIs(-12020000);
    ZigZagIs(-12020000);
    hide *;
    LastChunk(22);
    NextChunk(733, [85]);
    NextChunk(23476, [124, 85]);
    NextChunk(751249, [115, 124, 85]);
    NextChunk(24039999, [112, 115, 124, 85]);
  }

  lemma {:induction false} ExampleValue3()
    ensures EncodedValue(220000) == [95, 117, 108, 76]
  {
    EncodedIs(220000);
    ZigZagIs(220000);
    hide *;
    LastChunk(13);
    NextChunk(429, [76]);
    NextChunk(13750, [108, 76]);
    NextChunk(440000, [117, 108, 76]);
  }

  lemma {:induction false} ExampleValue4()
    ensures EncodedValue(-75000) == [110, 110, 113, 67]
  {
    EncodedIs(-75000);
    ZigZagIs(-75000);
    hide *;
    LastChunk(4);
    NextChunk(146, [67]);
    NextChunk(4687, [113, 67]);
    NextChunk(149999, [110, 113, 67]);
  }

  lemma {:induction false} ExampleValue5()
    ensures EncodedValue(255200) == [95, 109, 113, 78]
  {
    EncodedIs(255200);
    ZigZagIs(255200);
    hide *;
    LastChunk(15);
    NextChunk(498, [78]);
    NextChunk(15950, [113, 78]);
    NextChunk(510400, [109, 113, 78]);
  }

  lemma {:induction false} ExampleValue6()
    ensures EncodedValue(-550300) == [118, 120, 113, 96, 64]
  {
    EncodedIs(-550300);
    ZigZagIs(-550300);
    hide *;
    LastChunk(1);
    NextChunk(33, [64]);
    NextChunk(1074, [96, 64]);
    NextChunk(34393, [113, 96, 64]);
    NextChunk(1100599, [120, 113, 96, 64]);
  }

  /** The example in the description of the format, and of the decoder's own test. */
  const EXAMPLE: seq<Point<real>> := [Point(-120.2, 38.5), Point(-120.95, 40.7), Point(-126.453, 43.252)]

  const EXAMPLE_TEXT: Text := FIRST_TEXT + (SECOND_TEXT + THIRD_TEXT)
  const FIRST_TEXT: Text := [95, 112, 126, 105, 70, 126, 112, 115, 124, 85]
  const SECOND_TEXT: Text := [95, 117, 108, 76, 110, 110, 113, 67]
  const THIRD_TEXT: Text := [95, 109, 113, 78, 118, 120, 113, 96, 64]

  lemma {:induction false} ExampleGrid()
    ensures Quantise(EXAMPLE, 5) == [Point(-12020000, 3850000), Point(-12095000, 4070000), Point(-12645300, 4325200)]
  {
    assert Factor(5) == 100000;
  }

  lemma {:induction false} ExampleParts()
    ensures EncodedValue(3850000) + EncodedValue(-12020000) == FIRST_TEXT
    ensures EncodedValue(220000) + EncodedValue(-75000) == SECOND_TEXT
    ensures EncodedValue(255200) + EncodedValue(-550300) == THIRD_TEXT
  {
    hide EncodedValue;
    ExampleValue1();
    ExampleValue2();
    ExampleValue3();
    ExampleValue4();
    ExampleValue5();
    ExampleValue6();
  }

  lemma {:induction false} ExampleText()
    ensures EncodedFrom([Point(-12020000, 3850000), Point(-12095000, 4070000), Point(-12645300, 4325200)], 0, 0) ==
            EXAMPLE_TEXT
  {
    var grid: seq<GridPoint> := [Point(-12020000, 3850000), Point(-12095000, 4070000), Point(-12645300, 4325200)];
    ExampleParts();
    hide FIRST_TEXT;
    hide SECOND_TEXT;
    hide THIRD_TEXT;
    hide EncodedValue;
    EncodedHead(grid, 0, 0);
    EncodedHead(grid[1..], 3850000, -12020000);
    EncodedHead(grid[2..], 4070000, -12095000);
    assert grid[1..][1..] == grid[2..] && grid[2..][1..] == [] && THIRD_TEXT + [] == THIRD_TEXT;
    assert EncodedFrom([], 4325200, -12645300) == [];
    hide EncodedFrom;
  }

  /** The published example of the format comes out as published, and is read back as it was. */
  lemma {:induction false} PublishedExample()
    ensures EncodedFrom(Quantise(EXAMPLE, 5), 0, 0) == EXAMPLE_TEXT
    ensures Line(EXAMPLE_TEXT, 5) == EXAMPLE
  {
    ExampleFits();
    ExampleBack();
    hide *;
    ExampleGrid();
    ExampleText();
    GridRoundTrip(Quantise(EXAMPLE, 5));
  }

  lemma {:induction false} ExampleFits()
    ensures DeltasFit([Point(-12020000, 3850000), Point(-12095000, 4070000), Point(-12645300, 4325200)], 0, 0)
  {
    assert DeltasFit([Point(-12645300, 4325200)], 4070000, -12095000);
    assert DeltasFit([Point(-12095000, 4070000), Point(-12645300, 4325200)], 3850000, -12020000);
  }

  lemma {:induction false} ExampleBack()
    ensures DecodedFrom(EXAMPLE_TEXT, 0, 0, 0) ==
            [Point(-12020000, 3850000), Point(-12095000, 4070000), Point(-12645300, 4325200)] ==>
              Line(EXAMPLE_TEXT, 5) == EXAMPLE
  {
    assert Factor(5) == 100000;
    hide DecodedFrom;
    hide EXAMPLE_TEXT;
  }

  /** Latitude in [-90, 90] and longitude in [-180, 180]. */
  predicate LegalCoordinates(coordinates: seq<Point<real>>) {
    forall p :: p in coordinates ==> -180.0 <= p.lon <= 180.0 && -90.0 <= p.lat <= 90.0
  }

  predicate Within(p: GridPoint, bound: int) {
    -bound <= p.lon <= bound && -bound <= p.lat <= bound
  }

  lemma {:induction false} RoundBounds(x: real)
    ensures -0.5 <= Round(x) as real - x <= 0.5
  {
  }

  lemma {:induction false} RoundWithin(x: real, f: int, bound: int)
    requires f >= 1 && bound >= 0 && -(bound as real) <= x <= bound as real
    ensures -bound * f <= ToGrid(x, f) <= bound * f
  {
    Scale(x, bound as real, f as real);
    Scale(-(bound as real), x, f as real);
    ProductOfInts(bound, f);
    FloorBetween(x * f as real, bound * f);
    hide Round;
  }

  lemma {:induction false} Scale(x: real, y: real, f: real)
    requires x <= y && f >= 0.0
    ensures x * f <= y * f
  {
  }

  lemma {:induction false} ProductOfInts(bound: int, f: int)
    ensures bound as real * f as real == (bound * f) as real
    ensures -(bound as real) * f as real == -((bound * f) as real)
  {
  }

  lemma {:induction false} FloorBetween(y: real, top: int)
    requires -(top as real) <= y <= top as real
    ensures -top <= Round(y) <= top
  {
  }

  lemma {:induction false} CloseFits(points: seq<GridPoint>, lat: int, lng: int, bound: int)
    requires 0 <= bound < 0x2000_0000
    requires -bound <= lat <= bound && -bound <= lng <= bound
    requires forall p :: p in points ==> Within(p, bound)
    ensures DeltasFit(points, lat, lng)
    decreases |points|
  {
    if points != [] {
      assert points[0] in points;
      CloseFits(points[1..], points[0].lat, points[0].lon, bound);
    }
  }

  lemma {:induction false} FactorMonotone(p: nat, q: nat)
    requires p <= q
    ensures Factor(p) <= Factor(q)
  {
    if p < q {
      FactorMonotone(p, q - 1);
    }
  }

  lemma {:induction false} FactorSix()
    ensures Factor(6) == 1000000 && Factor(7) == 10000000
  {
    assert Factor(2) == 100;
    assert Factor(4) == 10000;
  }

  /** Up to precision 6 every list of coordinates on the globe has deltas that fit. */
  lemma {:induction false} LegalFits(coordinates: seq<Point<real>>, precision: nat)
    requires LegalCoordinates(coordinates) && precision <= 6
    ensures DeltasFit(Quantise(coordinates, precision), 0, 0)
  {
    var f := Factor(precision);
    FactorMonotone(precision, 6);
    FactorSix();
    var grid := Quantise(coordinates, precision);
    forall p | p in grid ensures Within(p, 180 * f) {
      var i :| 0 <= i < |grid| && grid[i] == p;
      assert coordinates[i] in coordinates;
      RoundWithin(coordinates[i].lon, f, 180);
      RoundWithin(coordinates[i].lat, f, 90);
    }
    CloseFits(grid, 0, 0, 180 * f);
  }

  lemma {:induction false} QuotientMonotone(a: real, b: real, r: real)
    requires r >= 1.0 && a <= b
    ensures a / r <= b / r
  {
  }

  lemma {:induction false} QuotientError(n: real, x: real, r: real)
    requires r >= 1.0 && -0.5 <= n - x * r <= 0.5
    ensures -0.5 / r <= n / r - x <= 0.5 / r
  {
    assert (n - x * r) / r == n / r - x;
    QuotientMonotone(-0.5, n - x * r, r);
    QuotientMonotone(n - x * r, 0.5, r);
  }

  lemma {:induction false} GridError(x: real, f: int)
    requires f >= 1
    ensures -0.5 / f as real <= FromGrid(ToGrid(x, f), f) - x <= 0.5 / f as real
  {
    RoundBounds(x * f as real);
    QuotientError(ToGrid(x, f) as real, x, f as real);
  }

  lemma {:induction false} GridFixed(n: int, f: int)
    requires f >= 1
    ensures ToGrid(FromGrid(n, f), f) == n
  {
    assert n as real / f as real * f as real == n as real;
  }

  /** Two coordinates closer than half a unit of the last decimal. */
  predicate Close(p: Point<real>, q: Point<real>, precision: nat) {
    var half := 0.5 / Factor(precision) as real;
    -half <= p.lon - q.lon <= half && -half <= p.lat - q.lat <= half
  }

  lemma {:induction false} QuantisedClose(p: Point<real>, precision: nat)
    ensures Close(OffGrid(Quantised(p, precision), precision), p, precision)
  {
    GridError(p.lon, Factor(precision));
    GridError(p.lat, Factor(precision));
  }

  lemma {:induction false} OffGridFixed(p: GridPoint, precision: nat)
    ensures Quantised(OffGrid(p, precision), precision) == p
  {
    GridFixed(p.lon, Factor(precision));
    GridFixed(p.lat, Factor(precision));
  }

  /** The decoded line, coordinate by coordinate, is within half a unit of the last decimal; nothing accumulates. */
  lemma {:induction false} RealRoundTrip(coordinates: seq<Point<real>>, precision: nat)
    requires DeltasFit(Quantise(coordinates, precision), 0, 0)
    ensures var decoded := DecodedFrom(EncodedFrom(Quantise(coordinates, precision), 0, 0), 0, 0, 0);
            && |decoded| == |coordinates|
            && forall i :: 0 <= i < |decoded| ==> Close(OffGrid(decoded[i], precision), coordinates[i], precision)
  {
    var grid := Quantise(coordinates, precision);
    GridRoundTrip(grid);
    forall i | 0 <= i < |grid| ensures Close(OffGrid(grid[i], precision), coordinates[i], precision) {
      QuantisedClose(coordinates[i], precision);
    }
  }

  /** What the decoder returns for any text is re-encoded and decoded to itself: quantising twice changes nothing. */
  lemma {:induction false} DecodedIsFixed(s: Text, precision: nat)
    ensures Line(EncodedFrom(Quantise(Line(s, precision), precision), 0, 0), precision) == Line(s, precision)
  {
    var grid := DecodedFrom(s, 0, 0, 0);
    forall i | 0 <= i < |grid| ensures Quantised(Line(s, precision)[i], precision) == grid[i] {
      OffGridFixed(grid[i], precision);
    }
    assert Quantise(Line(s, precision), precision) == grid;
    DecodedDeltasFit(s, 0, 0, 0);
    GridRoundTrip(grid);
  }

  /** At precision 7 and above, the line from 180 W to 180 E has a delta the format cannot carry. */
  lemma {:induction false} AcrossTheGlobe(precision: nat) returns (line: seq<Point<real>>)
    requires precision >= 7
    ensures LegalCoordinates(line) && !DeltasFit(Quantise(line, precision), 0, 0)
  {
    line := [Point(-180.0, 0.0), Point(180.0, 0.0)];
    var f := Factor(precision);
    FactorSix();
    FactorMonotone(7, precision);
    var grid := Quantise(line, precision);
    WholeDegrees(-180, f);
    assert grid[0].lon == -180 * f;
  }

  lemma {:induction false} WholeDegrees(n: int, f: int)
    ensures ToGrid(n as real, f) == n * f
  {
    assert n as real * f as real == (n * f) as real;
  }

  /** Every line of points on the globe is read back at a precision exactly when it is at most 6. */
  lemma {:induction false} LegalRoundTrip(precision: nat)
    ensures (forall line :: LegalCoordinates(line) ==>
               DecodedFrom(EncodedFrom(Quantise(line, precision), 0, 0), 0, 0, 0) == Quantise(line, precision)) <==>
            precision <= 6
  {
    if precision <= 6 {
      forall line | LegalCoordinates(line)
        ensures DecodedFrom(EncodedFrom(Quantise(line, precision), 0, 0), 0, 0, 0) == Quantise(line, precision)
      {
        LegalFits(line, precision);
        GridRoundTrip(Quantise(line, precision));
      }
    } else {
      var line := AcrossTheGlobe(precision);
      GridRoundTrip(Quantise(line, precision));
    }
  }
}

/** The Q6_K super-block: 256 six-bit codes, 16 scales and one block factor in 210 bytes
    (tools/bitnet_writer.py `_store_q6`, `_encode_q6k`, `decode_q6k`; tools/chat_v6.py `decode_q6k_fast`).
 */
module Q6kLayout {

  type bytes8 = seq<bv8>

  // ----- where an element lives ------------------------------------------------------------------------------

  /** An element's half, its lane of 32 and its place in the lane. */
  datatype Place = Place(half: nat, lane: nat, col: nat)

  predicate Inside(a: Place) {
    a.half < 2 && a.lane < 4 && a.col < 32
  }

  function PlaceOf(e: nat): Place {
    Place(e / 128, e % 128 / 32, e % 128 % 32)
  }

  function Elem(a: Place): nat {
    128 * a.half + 32 * a.lane + a.col
  }

  lemma {:induction false} PlaceBack(e: nat)
    requires e < 256
    ensures Inside(PlaceOf(e)) && Elem(PlaceOf(e)) == e
  {
  }

  lemma {:induction false} ElemBack(a: Place)
    requires Inside(a)
    ensures Elem(a) < 256 && PlaceOf(Elem(a)) == a
  {
  }

  /** Position in the low-nibble array and in the high-bits array. */
  function LowPos(a: Place): nat {
    a.half * 64 + a.col + (if a.lane == 0 || a.lane == 2 then 0 else 32)
  }

  function HighPos(a: Place): nat {
    a.half * 32 + a.col
  }

  function Low(c: bv8): bv8 { c & 0xF }

  function High(c: bv8): bv8 { (c >> 4) & 3 }

  /** What an element adds to the byte at its low position, and at its high position. */
  function LowBits(a: Place, c: bv8): bv8 {
    if a.lane < 2 then Low(c) else Low(c) << 4
  }

  function HighBits(a: Place, c: bv8): bv8 {
    if a.lane == 0 then High(c) << 0 else if a.lane == 1 then High(c) << 2
    else if a.lane == 2 then High(c) << 4 else High(c) << 6
  }

  // ----- bytes in closed form --------------------------------------------------------------------------------

  predicate IsBlock(codes: bytes8) {
    |codes| == 256
  }

  /** The two places that share a byte of the low array. */
  function LowFirst(p: nat): Place { Place(p / 64, p % 64 / 32, p % 64 % 32) }

  function LowSecond(p: nat): Place { Place(p / 64, p % 64 / 32 + 2, p % 64 % 32) }

  lemma {:induction false} LowInside(p: nat)
    requires p < 128
    ensures Inside(LowFirst(p)) && Inside(LowSecond(p)) && LowFirst(p).lane < 2
    ensures Elem(LowFirst(p)) < 256 && Elem(LowSecond(p)) < 256
    ensures LowPos(LowFirst(p)) == p && LowPos(LowSecond(p)) == p
  {
  }

  function LowByte(codes: bytes8, p: nat): bv8
    requires IsBlock(codes) && p < 128
  {
    LowInside(p);
    Low(codes[Elem(LowFirst(p))]) | (Low(codes[Elem(LowSecond(p))]) << 4)
  }

  /** The four places that share a byte of the high array. */
  function HighPlace(p: nat, lane: nat): Place { Place(p / 32, lane, p % 32) }

  lemma {:induction false} HighInside(p: nat, lane: nat)
    requires p < 64 && lane < 4
    ensures Inside(HighPlace(p, lane)) && Elem(HighPlace(p, lane)) < 256 && HighPos(HighPlace(p, lane)) == p
  {
  }

  function HighAt(codes: bytes8, p: nat, lane: nat): bv8
    requires IsBlock(codes) && p < 64 && lane < 4
  {
    HighInside(p, lane);
    High(codes[Elem(HighPlace(p, lane))])
  }

  function HighByte(codes: bytes8, p: nat): bv8
    requires IsBlock(codes) && p < 64
  {
    Fields(HighAt(codes, p, 0), HighAt(codes, p, 1), HighAt(codes, p, 2), HighAt(codes, p, 3))
  }

  function LowBytes(codes: bytes8): (b: bytes8)
    requires IsBlock(codes)
    ensures |b| == 128
  {
    seq(128, p requires 0 <= p < 128 => LowByte(codes, p))
  }

  function HighBytes(codes: bytes8): (b: bytes8)
    requires IsBlock(codes)
    ensures |b| == 64
  {
    seq(64, p requires 0 <= p < 64 => HighByte(codes, p))
  }

  // ----- storing one element at a time -----------------------------------------------------------------------

  function Ored(b: bytes8, p: nat, bits: bv8): (r: bytes8)
    requires p < |b|
    ensures |r| == |b|
  {
    b[p := b[p] | bits]
  }

  method OrInto(ql: array<bv8>, qh: array<bv8>, p: nat, low: bv8, q: nat, high: bv8)
    requires p < ql.Length && q < qh.Length && ql != qh
    modifies ql, qh
    ensures ql[..] == Ored(old(ql[..]), p, low) && qh[..] == Ored(old(qh[..]), q, high)
  {
    ql[p] := ql[p] | low;
    qh[q] := qh[q] | high;
  }

  lemma {:induction false} Positions(a: Place)
    requires Inside(a)
    ensures LowPos(a) < 128 && HighPos(a) < 64
  {
  }

  /** Puts one code into the two arrays by or-ing its bits in. */
  method StoreQ6(ql: array<bv8>, qh: array<bv8>, e: nat, c: bv8)
    requires ql.Length == 128 && qh.Length == 64 && ql != qh && e < 256
    modifies ql, qh
    ensures LowPos(PlaceOf(e)) < 128 && HighPos(PlaceOf(e)) < 64
    ensures ql[..] == Ored(old(ql[..]), LowPos(PlaceOf(e)), LowBits(PlaceOf(e), c))
    ensures qh[..] == Ored(old(qh[..]), HighPos(PlaceOf(e)), HighBits(PlaceOf(e), c))
  {
    PlaceBack(e);
    Positions(PlaceOf(e));
    var half, rem := e / 128, e % 128;
    var lane, l := rem / 32, rem % 32;
    assert PlaceOf(e) == Place(half, lane, l);
    StoreLane(ql, qh, half, lane, l, c);
  }

  method StoreLane(ql: array<bv8>, qh: array<bv8>, half: nat, lane: nat, l: nat, c: bv8)
    requires ql.Length == 128 && qh.Length == 64 && ql != qh && Inside(Place(half, lane, l))
    modifies ql, qh
    ensures ql[..] == Ored(old(ql[..]), LowPos(Place(half, lane, l)), LowBits(Place(half, lane, l), c))
    ensures qh[..] == Ored(old(qh[..]), HighPos(Place(half, lane, l)), HighBits(Place(half, lane, l), c))
  {
    var qlOff, qhOff := half * 64, half * 32;
    var low, high := Low(c), High(c);
    if lane == 0 {
      OrInto(ql, qh, qlOff + l, low, qhOff + l, high << 0);
    } else if lane == 1 {
      OrInto(ql, qh, qlOff + l + 32, low, qhOff + l, high << 2);
    } else if lane == 2 {
      OrInto(ql, qh, qlOff + l, low << 4, qhOff + l, high << 4);
    } else {
      OrInto(ql, qh, qlOff + l + 32, low << 4, qhOff + l, high << 6);
    }
  }

  lemma {:induction false} LowSharers(p: nat, a: Place)
    requires p < 128 && Inside(a)
    ensures LowPos(a) == p <==> a == LowFirst(p) || a == LowSecond(p)
  {
    LowInside(p);
    var f := LowFirst(p);
    assert p == 64 * f.half + 32 * f.lane + f.col;
  }

  lemma {:induction false} HighSharers(p: nat, a: Place)
    requires p < 64 && Inside(a)
    ensures HighPos(a) == p <==> a == HighPlace(p, a.lane)
  {
  }

  // ----- all elements of a block -----------------------------------------------------------------------------

  lemma {:induction false} FirstNibble(c: bv8, d: bv8)
    ensures (Low(0) | (Low(d) << 4)) | Low(c) == Low(c) | (Low(d) << 4)
    ensures (Low(d) | (Low(0) << 4)) | (Low(c) << 4) == Low(d) | (Low(c) << 4)
  {
  }

  lemma {:induction false} LowStep(codes: bytes8, e: nat, c: bv8, p: nat)
    requires IsBlock(codes) && e < 256 && codes[e] == 0 && p < 128
    ensures LowByte(codes[e := c], p) ==
            if p == LowPos(PlaceOf(e)) then LowByte(codes, p) | LowBits(PlaceOf(e), c) else LowByte(codes, p)
  {
    var a, f, t := PlaceOf(e), LowFirst(p), LowSecond(p);
    PlaceBack(e);
    LowInside(p);
    LowSharers(p, a);
    ElemBack(f);
    ElemBack(t);
    if a == f {
      FirstNibble(c, codes[Elem(t)]);
    } else if a == t {
      FirstNibble(c, codes[Elem(f)]);
    } else {
      assert Elem(f) != e && Elem(t) != e;
    }
  }

  /** Or-ing an element's bits in changes its code from zero, and no other. */
  lemma {:induction false} LowStored(codes: bytes8, e: nat, c: bv8)
    requires IsBlock(codes) && e < 256 && codes[e] == 0
    ensures LowPos(PlaceOf(e)) < 128
    ensures Ored(LowBytes(codes), LowPos(PlaceOf(e)), LowBits(PlaceOf(e), c)) == LowBytes(codes[e := c])
  {
    PlaceBack(e);
    Positions(PlaceOf(e));
    var l, r := Ored(LowBytes(codes), LowPos(PlaceOf(e)), LowBits(PlaceOf(e), c)), LowBytes(codes[e := c]);
    forall p | 0 <= p < 128 ensures l[p] == r[p] {
      LowStep(codes, e, c, p);
    }
  }

  /** The byte of four two-bit fields. */
  function Fields(a: bv8, b: bv8, c: bv8, d: bv8): bv8 {
    (a << 0) | (b << 2) | (c << 4) | (d << 6)
  }

  lemma {:induction false} FirstField(b: bv8, c: bv8, d: bv8, x: bv8)
    ensures Fields(0, b, c, d) | (x << 0) == Fields(x, b, c, d)
  {
  }

  lemma {:induction false} SecondField(a: bv8, c: bv8, d: bv8, x: bv8)
    ensures Fields(a, 0, c, d) | (x << 2) == Fields(a, x, c, d)
  {
  }

  lemma {:induction false} ThirdField(a: bv8, b: bv8, d: bv8, x: bv8)
    ensures Fields(a, b, 0, d) | (x << 4) == Fields(a, b, x, d)
  {
  }

  lemma {:induction false} FourthField(a: bv8, b: bv8, c: bv8, x: bv8)
    ensures Fields(a, b, c, 0) | (x << 6) == Fields(a, b, c, x)
  {
  }

  lemma {:induction false} HighIs(codes: bytes8, e: nat, c: bv8, p: nat, lane: nat)
    requires IsBlock(codes) && e < 256 && codes[e] == 0 && p < 64 && lane < 4
    ensures HighAt(codes[e := c], p, lane) == if PlaceOf(e) == HighPlace(p, lane) then High(c) else HighAt(codes, p, lane)
    ensures PlaceOf(e) == HighPlace(p, lane) ==> HighAt(codes, p, lane) == 0
  {
    PlaceBack(e);
    HighInside(p, lane);
    ElemBack(HighPlace(p, lane));
  }

  lemma {:induction false} HighStep(codes: bytes8, e: nat, c: bv8, p: nat)
    requires IsBlock(codes) && e < 256 && codes[e] == 0 && p < 64
    ensures HighByte(codes[e := c], p) ==
            if p == HighPos(PlaceOf(e)) then HighByte(codes, p) | HighBits(PlaceOf(e), c) else HighByte(codes, p)
  {
    PlaceBack(e);
    HighSharers(p, PlaceOf(e));
    HighIs(codes, e, c, p, 0);
    HighIs(codes, e, c, p, 1);
    HighIs(codes, e, c, p, 2);
    HighIs(codes, e, c, p, 3);
    FirstField(HighAt(codes, p, 1), HighAt(codes, p, 2), HighAt(codes, p, 3), High(c));
    SecondField(HighAt(codes, p, 0), HighAt(codes, p, 2), HighAt(codes, p, 3), High(c));
    ThirdField(HighAt(codes, p, 0), HighAt(codes, p, 1), HighAt(codes, p, 3), High(c));
    FourthField(HighAt(codes, p, 0), HighAt(codes, p, 1), HighAt(codes, p, 2), High(c));
  }

  lemma {:induction false} HighStored(codes: bytes8, e: nat, c: bv8)
    requires IsBlock(codes) && e < 256 && codes[e] == 0
    ensures HighPos(PlaceOf(e)) < 64
    ensures Ored(HighBytes(codes), HighPos(PlaceOf(e)), HighBits(PlaceOf(e), c)) == HighBytes(codes[e := c])
  {
    PlaceBack(e);
    Positions(PlaceOf(e));
    var l, r := Ored(HighBytes(codes), HighPos(PlaceOf(e)), HighBits(PlaceOf(e), c)), HighBytes(codes[e := c]);
    forall p | 0 <= p < 64 ensures l[p] == r[p] {
      HighStep(codes, e, c, p);
    }
  }

  // ----- repeated stores -------------------------------------------------------------------------------------

  /** The codes below `n`, zero for the rest. */
  function Masked(codes: bytes8, n: nat): (m: bytes8)
    requires IsBlock(codes)
    ensures |m| == 256
  {
    seq(256, i requires 0 <= i < 256 => if i < n then codes[i] else 0)
  }

  lemma {:induction false} MaskedNext(codes: bytes8, n: nat)
    requires IsBlock(codes) && n < 256
    ensures Masked(codes, n)[n] == 0 && Masked(codes, n + 1) == Masked(codes, n)[n := codes[n]]
  {
  }

  lemma {:induction false} MaskedEnds(codes: bytes8)
    requires IsBlock(codes)
    ensures Masked(codes, 256) == codes
    ensures forall p :: 0 <= p < 128 ==> LowBytes(Masked(codes, 0))[p] == 0
    ensures forall p :: 0 <= p < 64 ==> HighBytes(Masked(codes, 0))[p] == 0
  {
    forall p | 0 <= p < 128 ensures LowBytes(Masked(codes, 0))[p] == 0 {
      LowInside(p);
    }
    forall p | 0 <= p < 64 ensures HighBytes(Masked(codes, 0))[p] == 0 {
      HighInside(p, 0);
      HighInside(p, 1);
      HighInside(p, 2);
      HighInside(p, 3);
    }
  }

  method ZeroArrays() returns (ql: array<bv8>, qh: array<bv8>)
    ensures fresh(ql) && fresh(qh) && ql != qh && ql.Length == 128 && qh.Length == 64
    ensures (forall p :: 0 <= p < 128 ==> ql[p] == 0) && (forall p :: 0 <= p < 64 ==> qh[p] == 0)
  {
    ql := new bv8[128](_ => 0);
    qh := new bv8[64](_ => 0);
  }

  /** Scalar packing: one store after the other. */
  method StoreAll(codes: bytes8) returns (ql: array<bv8>, qh: array<bv8>)
    requires IsBlock(codes)
    ensures ql[..] == LowBytes(codes) && qh[..] == HighBytes(codes)
  {
    ql, qh := ZeroArrays();
    MaskedEnds(codes);
    assert ql[..] == LowBytes(Masked(codes, 0)) && qh[..] == HighBytes(Masked(codes, 0));
    var e := 0;
    while e < 256
      invariant 0 <= e <= 256 && fresh(ql) && fresh(qh) && ql != qh && ql.Length == 128 && qh.Length == 64
      invariant ql[..] == LowBytes(Masked(codes, e)) && qh[..] == HighBytes(Masked(codes, e))
    {
      MaskedNext(codes, e);
      LowStored(Masked(codes, e), e, codes[e]);
      HighStored(Masked(codes, e), e, codes[e]);
      StoreQ6(ql, qh, e, codes[e]);
      e := e + 1;
    }
  }

  // ----- vectorised packing ----------------------------------------------------------------------------------

  method OrAt(a: array<bv8>, p: nat, bits: bv8)
    requires p < a.Length
    modifies a
    ensures a[..] == Ored(old(a[..]), p, bits)
  {
    a[p] := a[p] | bits;
  }

  /** The codes of lanes 0 and 1 and, of the other lanes, those below `n`. */
  function FirstLanes(codes: bytes8, n: nat): (m: bytes8)
    requires IsBlock(codes)
    ensures |m| == 256
  {
    seq(256, i requires 0 <= i < 256 => if PlaceOf(i).lane < 2 || i < n then codes[i] else 0)
  }

  lemma {:induction false} FirstLanesNext(codes: bytes8, n: nat)
    requires IsBlock(codes) && n < 256
    ensures PlaceOf(n).lane < 2 ==> FirstLanes(codes, n + 1) == FirstLanes(codes, n)
    ensures PlaceOf(n).lane >= 2 ==>
              FirstLanes(codes, n)[n] == 0 && FirstLanes(codes, n + 1) == FirstLanes(codes, n)[n := codes[n]]
  {
  }

  lemma {:induction false} FirstLanesEnd(codes: bytes8)
    requires IsBlock(codes)
    ensures FirstLanes(codes, 256) == codes
  {
  }

  lemma {:induction false} OrNothing(b: bytes8, p: nat)
    requires p < |b|
    ensures Ored(b, p, 0) == b
  {
  }

  /** One element of the second pass: lanes 0 and 1 add nothing, the others their high nibble. */
  lemma {:induction false} HighNibbleStep(codes: bytes8, e: nat)
    requires IsBlock(codes) && e < 256
    ensures LowPos(PlaceOf(e)) < 128
    ensures Ored(LowBytes(FirstLanes(codes, e)), LowPos(PlaceOf(e)), if PlaceOf(e).lane < 2 then 0 else Low(codes[e]) << 4)
            == LowBytes(FirstLanes(codes, e + 1))
  {
    var a := PlaceOf(e);
    PlaceBack(e);
    Positions(a);
    FirstLanesNext(codes, e);
    var before := FirstLanes(codes, e);
    if a.lane < 2 {
      OrNothing(LowBytes(before), LowPos(a));
    } else {
      LowStored(before, e, codes[e]);
    }
  }

  /** First pass over the low array: low nibbles of lanes 0 and 1, nothing for the others. */
  method LowPass(ql: array<bv8>, codes: bytes8)
    requires IsBlock(codes) && ql.Length == 128 && ql[..] == LowBytes(Masked(FirstLanes(codes, 0), 0))
    modifies ql
    ensures ql[..] == LowBytes(FirstLanes(codes, 0))
  {
    ghost var kept := FirstLanes(codes, 0);
    MaskedEnds(kept);
    var e := 0;
    while e < 256
      invariant 0 <= e <= 256 && ql[..] == LowBytes(Masked(kept, e))
    {
      MaskedNext(kept, e);
      LowStored(Masked(kept, e), e, kept[e]);
      var a := PlaceOf(e);
      OrAt(ql, LowPos(a), if a.lane < 2 then Low(codes[e]) else 0);
      e := e + 1;
    }
  }

  /** Second pass: high nibbles of lanes 2 and 3. */
  method HighNibblePass(ql: array<bv8>, codes: bytes8)
    requires IsBlock(codes) && ql.Length == 128 && ql[..] == LowBytes(FirstLanes(codes, 0))
    modifies ql
    ensures ql[..] == LowBytes(codes)
  {
    var e := 0;
    while e < 256
      invariant 0 <= e <= 256 && ql[..] == LowBytes(FirstLanes(codes, e))
    {
      HighNibbleStep(codes, e);
      var a := PlaceOf(e);
      OrAt(ql, LowPos(a), if a.lane < 2 then 0 else Low(codes[e]) << 4);
      e := e + 1;
    }
    FirstLanesEnd(codes);
  }

  method HighPass(qh: array<bv8>, codes: bytes8)
    requires IsBlock(codes) && qh.Length == 64 && qh[..] == HighBytes(Masked(codes, 0))
    modifies qh
    ensures qh[..] == HighBytes(codes)
  {
    MaskedEnds(codes);
    var e := 0;
    while e < 256
      invariant 0 <= e <= 256 && qh[..] == HighBytes(Masked(codes, e))
    {
      MaskedNext(codes, e);
      HighStored(Masked(codes, e), e, codes[e]);
      OrAt(qh, HighPos(PlaceOf(e)), HighBits(PlaceOf(e), codes[e]));
      e := e + 1;
    }
  }

  /** Vectorised packing gives the bytes of repeated stores: both methods promise the same closed form. */
  method PackBlock(codes: bytes8) returns (ql: array<bv8>, qh: array<bv8>)
    requires IsBlock(codes)
    ensures ql[..] == LowBytes(codes) && qh[..] == HighBytes(codes)
  {
    ql, qh := ZeroArrays();
    MaskedEnds(FirstLanes(codes, 0));
    MaskedEnds(codes);
    assert ql[..] == LowBytes(Masked(FirstLanes(codes, 0), 0)) && qh[..] == HighBytes(Masked(codes, 0));
    LowPass(ql, codes);
    HighNibblePass(ql, codes);
    HighPass(qh, codes);
  }

  // ----- unpacking -------------------------------------------------------------------------------------------

  /** The code read from a low and a high byte, by lane. */
  function Unpacked(low: bv8, high: bv8, lane: nat): bv8 {
    if lane == 0 then (low & 0xF) | (((high >> 0) & 3) << 4)
    else if lane == 1 then (low & 0xF) | (((high >> 2) & 3) << 4)
    else if lane == 2 then (low >> 4) | (((high >> 4) & 3) << 4)
    else (low >> 4) | (((high >> 6) & 3) << 4)
  }

  lemma {:induction false} Nibbles(c: bv8, d: bv8)
    ensures (Low(c) | (Low(d) << 4)) & 0xF == Low(c) && (Low(c) | (Low(d) << 4)) >> 4 == Low(d)
  {
  }

  lemma {:induction false} FieldOf(a: bv8, b: bv8, c: bv8, d: bv8)
    requires a < 4 && b < 4 && c < 4 && d < 4
    ensures (Fields(a, b, c, d) >> 0) & 3 == a && (Fields(a, b, c, d) >> 2) & 3 == b
    ensures (Fields(a, b, c, d) >> 4) & 3 == c && (Fields(a, b, c, d) >> 6) & 3 == d
  {
  }

  lemma {:induction false} Rejoined(c: bv8)
    requires c < 64
    ensures Low(c) | (High(c) << 4) == c && High(c) < 4
  {
  }

  lemma {:induction false} HighSmall(c: bv8)
    ensures High(c) < 4
  {
  }

  lemma {:induction false} LowHalf(codes: bytes8, a: Place)
    requires IsBlock(codes) && Inside(a)
    ensures LowPos(a) < 128 && Elem(a) < 256
    ensures a.lane < 2 ==> LowBytes(codes)[LowPos(a)] & 0xF == Low(codes[Elem(a)])
    ensures a.lane >= 2 ==> LowBytes(codes)[LowPos(a)] >> 4 == Low(codes[Elem(a)])
  {
    Positions(a);
    ElemBack(a);
    var p := LowPos(a);
    LowInside(p);
    LowSharers(p, a);
    Nibbles(codes[Elem(LowFirst(p))], codes[Elem(LowSecond(p))]);
  }

  /** The field a decoder shifts out of a high byte. */
  function Field(h: bv8, lane: nat): bv8 {
    if lane == 0 then (h >> 0) & 3 else if lane == 1 then (h >> 2) & 3
    else if lane == 2 then (h >> 4) & 3 else (h >> 6) & 3
  }

  lemma {:induction false} FieldOfByte(codes: bytes8, p: nat, lane: nat)
    requires IsBlock(codes) && p < 64 && lane < 4
    ensures Field(HighByte(codes, p), lane) == HighAt(codes, p, lane)
  {
    HighFits(codes, p, 0);
    HighFits(codes, p, 1);
    HighFits(codes, p, 2);
    HighFits(codes, p, 3);
    FieldOf(HighAt(codes, p, 0), HighAt(codes, p, 1), HighAt(codes, p, 2), HighAt(codes, p, 3));
  }

  lemma {:induction false} HighFits(codes: bytes8, p: nat, lane: nat)
    requires IsBlock(codes) && p < 64 && lane < 4
    ensures HighAt(codes, p, lane) < 4
  {
    HighInside(p, lane);
    HighSmall(codes[Elem(HighPlace(p, lane))]);
  }

  lemma {:induction false} HighHalf(codes: bytes8, a: Place)
    requires IsBlock(codes) && Inside(a)
    ensures HighPos(a) < 64 && Elem(a) < 256
    ensures High(codes[Elem(a)]) == Field(HighBytes(codes)[HighPos(a)], a.lane)
  {
    Positions(a);
    ElemBack(a);
    HighSharers(HighPos(a), a);
    FieldOfByte(codes, HighPos(a), a.lane);
  }

  /** Every six-bit code comes back from the packed arrays. */
  lemma {:induction false} UnpackInvertsPack(codes: bytes8, e: nat)
    requires IsBlock(codes) && e < 256 && codes[e] < 64
    ensures var a := PlaceOf(e);
            && LowPos(a) < 128 && HighPos(a) < 64
            && Unpacked(LowBytes(codes)[LowPos(a)], HighBytes(codes)[HighPos(a)], a.lane) == codes[e]
  {
    PlaceBack(e);
    LowHalf(codes, PlaceOf(e));
    HighHalf(codes, PlaceOf(e));
    Rejoined(codes[e]);
  }
}

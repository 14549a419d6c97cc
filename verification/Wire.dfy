/** Bytes, little-endian numbers and "these bytes stand at this offset". */
module Wire {
  import opened Basics

  type byte = b: int | 0 <= b < 256

  type bytes = seq<byte>

  // What four and two bytes can hold is below these.
  const WORD := 0x1_0000_0000
  const HALF := 0x1_0000

  /** Numbers below it can be written in `k` bytes; only the widths in use have one. */
  function Limit(k: nat): nat {
    if k == 1 then 0x100
    else if k == 2 then 0x1_0000
    else if k == 4 then 0x1_0000_0000
    else if k == 8 then 0x1_0000_0000_0000_0000
    else 0
  }

  /** Quotient and remainder by 256, by counting (lemma HighLow). */
  function High(n: nat): nat {
    if n < 256 then 0 else 1 + High(n - 256)
  }

  function Low(n: nat): byte {
    if n < 256 then n else Low(n - 256)
  }

  lemma {:induction false} HighLow(n: nat)
    ensures n == 256 * High(n) + Low(n) && High(n) == n / 256 && Low(n) == n % 256
  {
    if n >= 256 {
      HighLow(n - 256);
    }
  }

  /** Byte `i` of `n`, counted from the least significant. */
  function Digit(n: nat, i: nat): byte
    decreases i
  {
    if i == 0 then Low(n) else Digit(High(n), i - 1)
  }

  /** The `k` low bytes of `n`, least significant first. */
  function LE(n: nat, k: nat): (b: bytes)
    ensures |b| == k
  {
    seq(k, i requires 0 <= i < k => Digit(n, i))
  }

  /** `n` has at most `k` digits. */
  predicate HasDigits(n: nat, k: nat)
    decreases k + 0
  {
    if k == 0 then n == 0 else HasDigits(High(n), k - 1)
  }

  lemma {:induction false} OneDigit(n: nat)
    requires n < 0x100
    ensures HasDigits(n, 1)
  {
    assert High(n) == 0;
  }

  lemma {:induction false} TwoDigits(n: nat)
    requires n < 0x1_0000
    ensures HasDigits(n, 2)
  {
    HighLow(n);
    OneDigit(High(n));
  }

  lemma {:induction false} FourDigits(n: nat)
    requires n < 0x1_0000_0000
    ensures HasDigits(n, 4)
  {
    HighLow(n);
    HighLow(High(n));
    TwoDigits(High(High(n)));
    assert HasDigits(High(n), 3);
  }

  lemma {:induction false} EightDigits(n: nat)
    requires n < 0x1_0000_0000_0000_0000
    ensures HasDigits(n, 8)
  {
    var a := High(n);
    var b := High(a);
    var c := High(b);
    HighLow(n);
    HighLow(a);
    HighLow(b);
    HighLow(c);
    FourDigits(High(c));
    assert HasDigits(c, 5);
    assert HasDigits(b, 6);
    assert HasDigits(a, 7);
  }

  lemma {:induction false} LimitGivesDigits(n: nat, k: nat)
    requires n < Limit(k)
    ensures HasDigits(n, k)
  {
    if k == 1 {
      OneDigit(n);
    } else if k == 2 {
      TwoDigits(n);
    } else if k == 4 {
      FourDigits(n);
    } else {
      EightDigits(n);
    }
  }

  /** The first `k` bytes of `x` stand in `data` at offset `off`. */
  predicate AtUpTo(data: bytes, off: nat, x: bytes, k: nat)
    requires k <= |x| && off + |x| <= |data|
  {
    k == 0 || (AtUpTo(data, off, x, k - 1) && data[off + (k - 1)] == x[k - 1])
  }

  /** `x` stands in `data` at offset `off`. */
  predicate At(data: bytes, off: nat, x: bytes) {
    off + |x| <= |data| && AtUpTo(data, off, x, |x|)
  }

  lemma {:induction false} AtUpToIndex(data: bytes, off: nat, x: bytes, k: nat)
    requires k <= |x| && off + |x| <= |data|
    ensures AtUpTo(data, off, x, k) <==> forall i {:trigger x[i]} :: 0 <= i < k ==> data[off + i] == x[i]
  {
    if k > 0 {
      AtUpToIndex(data, off, x, k - 1);
    }
  }

  lemma {:induction false} AtSlice(data: bytes, off: nat, x: bytes)
    ensures At(data, off, x) <==> off + |x| <= |data| && data[off..off + |x|] == x
  {
    if off + |x| <= |data| {
      AtUpToIndex(data, off, x, |x|);
      var s := data[off..off + |x|];
      assert forall i :: 0 <= i < |x| ==> s[i] == data[off + i];
      if s == x {
        forall i | 0 <= i < |x| ensures data[off + i] == x[i] {
          assert s[i] == x[i];
        }
      }
    }
  }

  /** The little-endian number in `k` bytes at an offset. */
  function NumAt(data: bytes, off: nat, k: nat): nat
    requires off + k <= |data|
    decreases k + 0
  {
    if k == 0 then 0 else data[off] + 256 * NumAt(data, off + 1, k - 1)
  }

  lemma {:induction false} NumOfDigits(data: bytes, off: nat, n: nat, k: nat)
    requires HasDigits(n, k) && off + k <= |data|
    requires forall i :: 0 <= i < k ==> data[off + i] == Digit(n, i)
    ensures NumAt(data, off, k) == n
    decreases k
  {
    if k > 0 {
      HighLow(n);
      assert data[off + 0] == Digit(n, 0);
      forall i | 0 <= i < k - 1 ensures data[off + 1 + i] == Digit(High(n), i) {
        assert data[off + (i + 1)] == Digit(n, i + 1);
      }
      NumOfDigits(data, off + 1, High(n), k - 1);
    }
  }

  lemma {:induction false} NumBack(data: bytes, off: nat, n: nat, k: nat)
    requires n < Limit(k) && At(data, off, LE(n, k))
    ensures NumAt(data, off, k) == n
  {
    LimitGivesDigits(n, k);
    AtSlice(data, off, LE(n, k));
    forall i | 0 <= i < k ensures data[off + i] == Digit(n, i) {
      assert data[off..off + k][i] == LE(n, k)[i];
    }
    NumOfDigits(data, off, n, k);
  }

  lemma {:induction false} AtWhole(x: bytes)
    ensures At(x, 0, x)
  {
    AtSlice(x, 0, x);
    assert x[0..|x|] == x;
  }

  lemma {:induction false} AtSplit(data: bytes, off: nat, a: bytes, b: bytes)
    ensures At(data, off, a + b) <==> At(data, off, a) && At(data, off + |a|, b)
  {
    AtSlice(data, off, a + b);
    AtSlice(data, off, a);
    AtSlice(data, off + |a|, b);
    if off + |a| + |b| <= |data| {
      var both := data[off..off + |a| + |b|];
      assert both[..|a|] == data[off..off + |a|];
      assert both[|a|..] == data[off + |a|..off + |a| + |b|];
      assert both == both[..|a|] + both[|a|..];
      assert (a + b)[..|a|] == a && (a + b)[|a|..] == b;
    }
  }

  lemma {:induction false} AtFour(a: bytes, b: bytes, c: bytes, d: bytes)
    ensures var data := a + b + c + d;
            At(data, 0, a) && At(data, |a|, b) && At(data, |a| + |b|, c) && At(data, |a| + |b| + |c|, d)
  {
    var data := a + b + c + d;
    AtWhole(data);
    AtSplit(data, 0, a + b + c, d);
    AtSplit(data, 0, a + b, c);
    AtSplit(data, 0, a, b);
  }

  // ----- reading records one behind the other ---------------------------------------------------------

  /** A reader takes the offset of a record to its value and the offset behind it. */
  type Reader<!T> = nat -> Result<(T, nat)>

  function ReadMany<T>(read: Reader<T>, o: nat, k: nat): Result<(seq<T>, nat)> {
    if k == 0 then Ok(([], o))
    else
      match ReadMany(read, o, k - 1)
      case Err(e) => Err(e)
      case Ok(xs) => ReadOneMore(xs, read(xs.1))
  }

  function ReadOneMore<T>(xs: (seq<T>, nat), x: Result<(T, nat)>): Result<(seq<T>, nat)> {
    match x case Err(e) => Err(e) case Ok(v) => Ok((xs.0 + [v.0], v.1))
  }

  lemma {:induction false} ReadManyStops<T>(read: Reader<T>, o: nat, i: nat, k: nat)
    requires i <= k && ReadMany(read, o, i).Err?
    ensures ReadMany(read, o, k) == Err(ReadMany(read, o, i).reason)
  {
    if i < k {
      ReadManyStops(read, o, i, k - 1);
    }
  }

  /** The first `k` byte strings laid end to end. */
  function Join(parts: seq<bytes>, k: nat): bytes
    requires k <= |parts|
  {
    if k == 0 then [] else Join(parts, k - 1) + parts[k - 1]
  }

  /** Wherever `rec` stands in `data`, the reader finds `x` there and stops behind it. */
  ghost predicate ReadsBack<T>(data: bytes, read: Reader<T>, rec: bytes, x: T) {
    forall o: nat :: At(data, o, rec) ==> read(o) == Ok((x, o + |rec|))
  }

  /** Reading back records laid end to end, if each can be read back by itself. */
  lemma {:induction false} ReadManyBack<T>(data: bytes, read: Reader<T>, o: nat, recs: seq<bytes>, xs: seq<T>, k: nat)
    requires k <= |recs| == |xs| && At(data, o, Join(recs, k))
    requires forall i :: 0 <= i < |recs| ==> ReadsBack(data, read, recs[i], xs[i])
    ensures ReadMany(read, o, k) == Ok((xs[..k], o + |Join(recs, k)|))
  {
    if k > 0 {
      AtSplit(data, o, Join(recs, k - 1), recs[k - 1]);
      ReadManyBack(data, read, o, recs, xs, k - 1);
      assert ReadsBack(data, read, recs[k - 1], xs[k - 1]);
      assert xs[..k] == xs[..k - 1] + [xs[k - 1]];
    }
  }

  // ----- arrays of numbers -----------------------------------------------------------------------------

  /** The first `k` numbers in `w` bytes each. */
  function Cells(xs: seq<nat>, w: nat, k: nat): (b: bytes)
    requires k <= |xs|
    ensures |b| == w * k
  {
    if k == 0 then [] else Cells(xs, w, k - 1) + LE(xs[k - 1], w)
  }

  function CellsAt(data: bytes, off: nat, w: nat, k: nat): (xs: seq<nat>)
    requires off + w * k <= |data|
    ensures |xs| == k
  {
    if k == 0 then [] else CellsAt(data, off, w, k - 1) + [NumAt(data, off + w * (k - 1), w)]
  }

  predicate AllBelow(xs: seq<nat>, bound: nat) {
    forall i :: 0 <= i < |xs| ==> xs[i] < bound
  }

  lemma {:induction false} OneMoreCell(data: bytes, off: nat, xs: seq<nat>, w: nat, k: nat, end: nat)
    requires 0 < k <= |xs| && xs[k - 1] < Limit(w) && end == off + w * (k - 1) && At(data, end, LE(xs[k - 1], w))
    requires CellsAt(data, off, w, k - 1) == xs[..k - 1]
    ensures off + w * k <= |data| && CellsAt(data, off, w, k) == xs[..k]
  {
    assert w * k == w * (k - 1) + w;
    NumBack(data, end, xs[k - 1], w);
    assert xs[..k] == xs[..k - 1] + [xs[k - 1]];
  }

  lemma {:induction false} CellsSplit(data: bytes, off: nat, xs: seq<nat>, w: nat, k: nat) returns (end: nat)
    requires 0 < k <= |xs| && At(data, off, Cells(xs, w, k))
    ensures At(data, off, Cells(xs, w, k - 1)) && end == off + w * (k - 1) && At(data, end, LE(xs[k - 1], w))
  {
    AtSplit(data, off, Cells(xs, w, k - 1), LE(xs[k - 1], w));
    end := off + |Cells(xs, w, k - 1)|;
  }

  lemma {:induction false} CellsBack(data: bytes, off: nat, xs: seq<nat>, w: nat, k: nat)
    requires k <= |xs| && At(data, off, Cells(xs, w, k)) && AllBelow(xs, Limit(w))
    ensures off + w * k <= |data| && CellsAt(data, off, w, k) == xs[..k]
  {
    if k > 0 {
      var end := CellsSplit(data, off, xs, w, k);
      CellsBack(data, off, xs, w, k - 1);
      OneMoreCell(data, off, xs, w, k, end);
    }
  }
}

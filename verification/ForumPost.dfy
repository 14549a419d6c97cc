/** The shared forum log (tools/forum_post.py): tolerant line decoding, id allocation and the
    append of a batch of messages.

    The JSON library is a parameter.  The log is the text after newline translation.
 */
module ForumPost {

  import opened Basics

  /** A message object.  `id` is None when the key is missing or not a string. */
  datatype Message = Message(id: Option<string>, sender: string, ts: string, kind: string,
                             ref: string, body: string, data: string)

  datatype Draft = Draft(kind: string, ref: string, body: string, data: string)

  /** Result of decoding one JSON value at the start of a text: an object, or some other value. */
  datatype Scan = Bad | Value(obj: Option<Message>, len: nat)

  datatype Json = Json(raw: string -> Scan, dumps: Message -> string, toInt: string -> Option<int>)

  /** What the code relies on in the JSON library and in `int`. */
  ghost predicate Lawful(j: Json) {
    && (forall s {:trigger j.raw(s)} :: j.raw(s).Value? ==> 0 < j.raw(s).len <= |s|)
    && (forall m: Message, t: string {:trigger j.dumps(m) + t} ::
          j.raw(j.dumps(m) + t) == Value(Some(m), |j.dumps(m)|))
    && (forall m: Message {:trigger j.dumps(m)} :: DumpsIsLine(j.dumps(m)))
    && (forall s: string {:trigger s + "\n"} :: '\n' !in s ==> j.raw(s + "\n") == j.raw(s))
    && (forall s: string {:trigger j.toInt(s)} :: s != [] && AllDigits(s) ==> j.toInt(s) == Some(NumberOf(s)))
  }

  /** What raw decoding does with a printed message glued to other text: a complete value in front is read as before;
      behind an incomplete or broken one, nothing of the line is read. */
  ghost predicate Gluing(j: Json) {
    && (forall s: string, m: Message {:trigger j.raw(s + (j.dumps(m) + "\n"))} ::
          j.raw(s).Value? ==> j.raw(s + (j.dumps(m) + "\n")) == j.raw(s))
    && (forall s: string, m: Message {:trigger DecodeLine(j, s + (j.dumps(m) + "\n"))} ::
          s != [] && !Blank(s[0]) && j.raw(s).Bad? ==> DecodeLine(j, s + (j.dumps(m) + "\n")) == [])
  }

  predicate DumpsIsLine(line: string) {
    line != [] && '\n' !in line && !Blank(line[0])
  }

  predicate Blank(c: char) {
    c == ' ' || c == '\t' || c == '\r' || c == '\n'
  }

  // ----- decimal ids ------------------------------------------------------------------------

  predicate AllDigits(s: string) {
    forall i :: 0 <= i < |s| ==> IsDigit(s[i])
  }

  function DigitValue(c: char): nat
    requires IsDigit(c)
  {
    c as int - '0' as int
  }

  function NumberOf(s: string): nat
    requires AllDigits(s)
  {
    if s == [] then 0 else 10 * NumberOf(s[..|s| - 1]) + DigitValue(s[|s| - 1])
  }

  function DigitChar(d: nat): (c: char)
    requires d < 10
    ensures IsDigit(c) && DigitValue(c) == d
  {
    ('0' as int + d) as char
  }

  /** Decimal digits of `n`, at least `width` of them, zeros in front. */
  function Padded(n: nat, width: nat): (s: string)
    ensures AllDigits(s) && NumberOf(s) == n
    ensures |s| >= width && (width >= 1 ==> s != [])
    decreases n, width
  {
    if n == 0 && width == 0 then []
    else
      var front := Padded(n / 10, if width == 0 then 0 else width - 1);
      var s := front + [DigitChar(n % 10)];
      assert s[..|s| - 1] == front;
      s
  }

  /** The id the code prints with "%s-%04d". */
  function FormatId(who: string, n: nat): string {
    who + "-" + Padded(n, 4)
  }

  /** What `split("-")[-1]` returns. */
  function LastPiece(s: string): string {
    if s == [] then []
    else if s[|s| - 1] == '-' then []
    else LastPiece(s[..|s| - 1]) + [s[|s| - 1]]
  }

  lemma {:induction false} LastPieceOfDashed(a: string, d: string)
    requires '-' !in d
    ensures LastPiece(a + "-" + d) == d
  {
    var s := a + "-" + d;
    if d == [] {
      assert s[|s| - 1] == '-';
    } else {
      var front := d[..|d| - 1];
      assert s[..|s| - 1] == a + "-" + front;
      LastPieceOfDashed(a, front);
    }
  }

  predicate StartsWith(s: string, p: string) {
    |p| <= |s| && s[..|p|] == p
  }

  /** The number of one of `who`'s ids, as `max_id` reads it. */
  function OwnNumber(j: Json, who: string, id: string): Option<int> {
    if StartsWith(id, who + "-") then j.toInt(LastPiece(id)) else None
  }

  lemma {:induction false} OwnNumberOfFormat(j: Json, who: string, n: nat)
    requires Lawful(j)
    ensures OwnNumber(j, who, FormatId(who, n)) == Some(n)
  {
    var d := Padded(n, 4);
    assert '-' !in d;
    assert FormatId(who, n)[..|who + "-"|] == who + "-";
    LastPieceOfDashed(who, d);
  }

  /** Ids name their author and number: equal ids have the same author and the same number. */
  lemma {:induction false} FormatIdInjective(who: string, n: nat, who': string, n': nat)
    ensures FormatId(who, n) == FormatId(who', n') ==> who == who' && n == n'
  {
    var d, d' := Padded(n, 4), Padded(n', 4);
    assert '-' !in d && '-' !in d';
    LastPieceOfDashed(who, d);
    LastPieceOfDashed(who', d');
    if FormatId(who, n) == FormatId(who', n') {
      assert d == d';
      var id := FormatId(who, n);
      assert id[..|id| - |d| - 1] == who && id[..|id| - |d'| - 1] == who';
    }
  }

  // ----- decoding the log -------------------------------------------------------------------

  function SkipBlanks(s: string): (r: string)
    ensures |r| <= |s|
    ensures r != [] ==> !Blank(r[0])
  {
    if s != [] && Blank(s[0]) then SkipBlanks(s[1..]) else s
  }

  function Objects(o: Option<Message>): seq<Message> {
    if o.Some? then [o.value] else []
  }

  /** All objects of one line, in order, up to the first text that is not JSON. */
  function DecodeLine(j: Json, s: string): seq<Message>
    decreases |s|
  {
    var r := SkipBlanks(s);
    if r == [] then []
    else
      match j.raw(r)
      case Bad => []
      case Value(o, len) =>
        if 0 < len <= |r| then Objects(o) + DecodeLine(j, r[len..]) else []
  }

  /** Length of the first line, its newline included. */
  function LineEnd(t: string): (k: nat)
    ensures k <= |t| && (t != [] ==> k > 0)
  {
    if t == [] then 0 else if t[0] == '\n' then 1 else 1 + LineEnd(t[1..])
  }

  function DecodeLog(j: Json, t: string): seq<Message>
    decreases |t|
  {
    if t == [] then []
    else DecodeLine(j, t[..LineEnd(t)]) + DecodeLog(j, t[LineEnd(t)..])
  }

  method SkipFrom(line: string, start: nat) returns (i: nat)
    requires start <= |line|
    ensures start <= i <= |line| && line[i..] == SkipBlanks(line[start..])
  {
    i := start;
    while i < |line| && Blank(line[i])
      invariant start <= i <= |line|
      invariant SkipBlanks(line[start..]) == SkipBlanks(line[i..])
    {
      assert line[i..][1..] == line[i + 1..];
      i := i + 1;
    }
  }

  lemma {:induction false} DecodeLineStep(j: Json, s: string, r: string)
    requires r == SkipBlanks(s) && r != [] && j.raw(r).Value? && 0 < j.raw(r).len <= |r|
    ensures DecodeLine(j, s) == Objects(j.raw(r).obj) + DecodeLine(j, r[j.raw(r).len..])
  {
  }

  lemma {:induction false} DecodeLineEnds(j: Json, s: string, r: string)
    requires r == SkipBlanks(s) && (r == [] || j.raw(r).Bad?)
    ensures DecodeLine(j, s) == []
  {
  }

  /** One round of the scan: the value at `k`, behind the blanks from `i` on. */
  method ScanValue(j: Json, line: string, i: nat, k: nat) returns (out: seq<Message>, next: nat)
    requires i <= k < |line| && SkipBlanks(line[i..]) == line[k..]
    requires j.raw(line[k..]).Value? && 0 < j.raw(line[k..]).len <= |line| - k
    ensures i < next <= |line| && DecodeLine(j, line[i..]) == out + DecodeLine(j, line[next..])
  {
    var v := j.raw(line[k..]);
    DecodeLineStep(j, line[i..], line[k..]);
    assert line[k..][v.len..] == line[k + v.len..];
    out, next := Objects(v.obj), k + v.len;
  }

  /** The scan of one line, as the code runs it with an index. */
  method DecodeLineScan(j: Json, line: string) returns (out: seq<Message>)
    requires forall s {:trigger j.raw(s)} :: j.raw(s).Value? ==> 0 < j.raw(s).len <= |s|
    ensures out == DecodeLine(j, line)
  {
    ghost var all := DecodeLine(j, line);
    out := [];
    var i := 0;
    assert line[0..] == line;
    while i < |line|
      invariant 0 <= i <= |line|
      invariant all == out + DecodeLine(j, line[i..])
    {
      var k := SkipFrom(line, i);
      if k >= |line| || j.raw(line[k..]).Bad? {
        DecodeLineEnds(j, line[i..], line[k..]);
        return;
      }
      var found, next := ScanValue(j, line, i, k);
      Assoc(out, found, DecodeLine(j, line[next..]));
      out, i := out + found, next;
    }
  }

  lemma {:induction false} LineEndOfTerminated(a: string, b: string)
    requires a != [] && a[|a| - 1] == '\n'
    ensures LineEnd(a + b) == LineEnd(a) <= |a|
    ensures a[LineEnd(a) - 1] == '\n'
  {
    if a[0] != '\n' {
      assert (a + b)[1..] == a[1..] + b;
      LineEndOfTerminated(a[1..], b);
    }
  }

  /** A log that is empty or ends in a newline decodes independently of what is appended. */
  lemma {:induction false} DecodeAppend(j: Json, a: string, b: string)
    requires a == [] || a[|a| - 1] == '\n'
    ensures DecodeLog(j, a + b) == DecodeLog(j, a) + DecodeLog(j, b)
    decreases |a|
  {
    if a == [] {
      assert a + b == b;
    } else {
      LineEndOfTerminated(a, b);
      var k := LineEnd(a);
      assert (a + b)[..k] == a[..k];
      assert (a + b)[k..] == a[k..] + b;
      DecodeAppend(j, a[k..], b);
    }
  }

  lemma {:induction false} SkipBlanksNewline(s: string)
    ensures SkipBlanks(s + "\n") == if SkipBlanks(s) == [] then [] else SkipBlanks(s) + "\n"
    ensures '\n' !in s ==> '\n' !in SkipBlanks(s)
  {
    if s == [] {
      assert s + "\n" == "\n";
      assert "\n"[1..] == "";
    } else if Blank(s[0]) {
      assert (s + "\n")[1..] == s[1..] + "\n";
      SkipBlanksNewline(s[1..]);
    }
  }

  lemma {:induction false} DecodeLineNewline(j: Json, s: string)
    requires Lawful(j) && '\n' !in s
    ensures DecodeLine(j, s + "\n") == DecodeLine(j, s)
    decreases |s|
  {
    SkipBlanksNewline(s);
    var r := SkipBlanks(s);
    if r != [] {
      assert j.raw(r + "\n") == j.raw(r);
      var x := j.raw(r);
      if x.Value? {
        assert (r + "\n")[x.len..] == r[x.len..] + "\n";
        DecodeLineNewline(j, r[x.len..]);
      }
    }
  }

  lemma {:induction false} LineEndUnterminated(t: string)
    ensures '\n' !in t ==> LineEnd(t) == |t| && LineEnd(t + "\n") == |t| + 1
    ensures '\n' in t ==> LineEnd(t + "\n") == LineEnd(t) && t[LineEnd(t) - 1] == '\n'
  {
    if t == [] {
      assert t + "\n" == "\n";
    } else {
      assert (t + "\n")[1..] == t[1..] + "\n";
      LineEndUnterminated(t[1..]);
    }
  }

  /** Closing an unfinished last line changes nothing that was readable. */
  lemma {:induction false} DecodeTermination(j: Json, t: string)
    requires Lawful(j)
    requires t != [] && t[|t| - 1] != '\n'
    ensures DecodeLog(j, t + "\n") == DecodeLog(j, t)
    decreases |t|
  {
    LineEndUnterminated(t);
    var k := LineEnd(t);
    if '\n' !in t {
      assert t[..k] == t && t[k..] == [];
      assert (t + "\n")[..k + 1] == t + "\n" && (t + "\n")[k + 1..] == [];
      DecodeLineNewline(j, t);
    } else {
      assert (t + "\n")[..k] == t[..k] && (t + "\n")[k..] == t[k..] + "\n";
      DecodeTermination(j, t[k..]);
    }
  }

  // ----- the payload ------------------------------------------------------------------------

  /** The lines of a batch, each closed by a newline. */
  function Payload(j: Json, ms: seq<Message>): string {
    if ms == [] then [] else j.dumps(ms[0]) + "\n" + Payload(j, ms[1..])
  }

  lemma {:induction false} DecodeDumpsLine(j: Json, m: Message)
    requires Lawful(j)
    ensures LineEnd(j.dumps(m) + "\n") == |j.dumps(m)| + 1
    ensures DecodeLog(j, j.dumps(m) + "\n") == [m]
  {
    var d := j.dumps(m);
    assert DumpsIsLine(d);
    LineEndUnterminated(d);
    var t := d + "\n";
    assert t[..LineEnd(t)] == t && t[LineEnd(t)..] == [];
    assert SkipBlanks(t) == t;
    assert j.raw(d + "\n") == Value(Some(m), |d|);
    assert t[|d|..] == "\n";
    assert SkipBlanks("\n") == SkipBlanks("\n"[1..]) == [];
    assert DecodeLine(j, "\n") == [];
  }

  /** Every batch reads back as exactly the messages written. */
  lemma {:induction false} DecodePayload(j: Json, ms: seq<Message>)
    requires Lawful(j)
    ensures DecodeLog(j, Payload(j, ms)) == ms
  {
    if ms != [] {
      DecodeDumpsLine(j, ms[0]);
      DecodePayload(j, ms[1..]);
      DecodeAppend(j, j.dumps(ms[0]) + "\n", Payload(j, ms[1..]));
      assert [ms[0]] + ms[1..] == ms;
    }
  }

  /** What the guard looks at: the file is not empty and does not end in a newline. */
  predicate Torn(log: string) {
    log != [] && log[|log| - 1] != '\n'
  }

  /** The text after one write: a newline first when the guard found the file torn, then the batch.
      An empty batch still writes its closing newline. */
  function Written(j: Json, log: string, torn: bool, ms: seq<Message>): string {
    log + (if torn then "\n" else "") + (if ms == [] then "\n" else Payload(j, ms))
  }

  /** The text behind the last newline. */
  function OpenLine(t: string): (s: string)
    ensures |s| <= |t| && t[|t| - |s|..] == s && '\n' !in s
    ensures |s| == |t| || t[|t| - |s| - 1] == '\n'
    ensures s == [] <==> !Torn(t)
  {
    if !Torn(t) then [] else OpenLine(t[..|t| - 1]) + [t[|t| - 1]]
  }

  /** The scan of a line runs through complete JSON values to its end. */
  predicate Whole(j: Json, s: string)
    decreases |s|
  {
    var r := SkipBlanks(s);
    r == [] ||
    (match j.raw(r)
     case Bad => false
     case Value(_, len) => 0 < len <= |r| && Whole(j, r[len..]))
  }

  lemma {:induction false} SkipBlanksGlued(s: string, d: string)
    requires d != [] && !Blank(d[0])
    ensures SkipBlanks(s + d) == SkipBlanks(s) + d
  {
    if s == [] {
      assert s + d == d;
    } else if Blank(s[0]) {
      assert (s + d)[1..] == s[1..] + d;
      SkipBlanksGlued(s[1..], d);
    }
  }

  lemma {:induction false} SkipTwice(s: string)
    ensures SkipBlanks(SkipBlanks(s)) == SkipBlanks(s)
  {
    if s != [] && Blank(s[0]) {
      SkipTwice(s[1..]);
    }
  }

  /** The last line `s`, glued to the printed message `m`, gives up `m` as well exactly when `s` is whole. */
  ghost predicate Glued(j: Json, s: string, m: Message) {
    DecodeLine(j, s + (j.dumps(m) + "\n")) == DecodeLine(j, s) + (if Whole(j, s) then [m] else [])
  }

  lemma {:induction false} GluedToNothing(j: Json, s: string, m: Message)
    requires Lawful(j) && SkipBlanks(s) == []
    ensures Glued(j, s, m)
  {
    var d := j.dumps(m) + "\n";
    assert DumpsIsLine(j.dumps(m));
    SkipBlanksGlued(s, d);
    assert [] + d == d && SkipBlanks(d) == d;
    DecodeDumpsLine(j, m);
    OneLine(j, j.dumps(m));
  }

  lemma {:induction false} GluedToBad(j: Json, s: string, m: Message)
    requires Lawful(j) && Gluing(j) && SkipBlanks(s) != [] && j.raw(SkipBlanks(s)).Bad?
    ensures Glued(j, s, m)
  {
    var d, r := j.dumps(m) + "\n", SkipBlanks(s);
    assert DumpsIsLine(j.dumps(m));
    SkipBlanksGlued(s, d);
    SkipBlanksGlued(r, d);
    SkipTwice(s);
    assert DecodeLine(j, r + d) == [];
    assert DecodeLine(j, s + d) == DecodeLine(j, r + d);
  }

  lemma {:induction false} GluedToValue(j: Json, s: string, m: Message, r: string, n: nat)
    requires Lawful(j) && Gluing(j) && r == SkipBlanks(s) != [] && j.raw(r).Value? && n == j.raw(r).len
    requires Glued(j, r[n..], m)
    ensures Glued(j, s, m)
  {
    var d := j.dumps(m) + "\n";
    assert DumpsIsLine(j.dumps(m));
    SkipBlanksGlued(s, d);
    assert j.raw(r + d) == j.raw(r);
    assert (r + d)[n..] == r[n..] + d;
    DecodeLineStep(j, s + d, r + d);
    DecodeLineStep(j, s, r);
    Assoc(Objects(j.raw(r).obj), DecodeLine(j, r[n..]), if Whole(j, r[n..]) then [m] else []);
  }

  lemma {:induction false} GluedLine(j: Json, s: string, m: Message)
    requires Lawful(j) && Gluing(j)
    ensures Glued(j, s, m)
    decreases |s|
  {
    var r := SkipBlanks(s);
    if r == [] {
      GluedToNothing(j, s, m);
    } else if j.raw(r).Bad? {
      GluedToBad(j, s, m);
    } else {
      GluedLine(j, r[j.raw(r).len..], m);
      GluedToValue(j, s, m, r, j.raw(r).len);
    }
  }

  lemma {:induction false} ClosedLog(j: Json, t: string)
    requires Lawful(j)
    ensures DecodeLog(j, t + "\n") == DecodeLog(j, t)
    ensures (t + "\n") != [] && !Torn(t + "\n")
  {
    if Torn(t) {
      DecodeTermination(j, t);
    } else {
      DecodeAppend(j, t, "\n");
      BlankLine(j);
    }
  }

  lemma {:induction false} BlankLine(j: Json)
    ensures DecodeLog(j, "\n") == []
  {
    assert SkipBlanks("\n") == SkipBlanks("\n"[1..]) == [];
    assert LineEnd("\n") == 1 && "\n"[..1] == "\n" && "\n"[1..] == [];
    assert DecodeLog(j, "\n") == DecodeLine(j, "\n") + DecodeLog(j, []);
  }

  /** A batch behind the newline of the guard, or behind a finished line, is read back whole. */
  lemma {:induction false} FinishedWrite(j: Json, log: string, torn: bool, ms: seq<Message>)
    requires Lawful(j) && (torn || !Torn(log) || ms == [])
    ensures DecodeLog(j, Written(j, log, torn, ms)) == DecodeLog(j, log) + ms
  {
    var base := log + if torn then "\n" else "";
    if torn {
      ClosedLog(j, log);
    } else {
      assert base == log;
    }
    if ms == [] {
      ClosedLog(j, base);
    } else {
      DecodePayload(j, ms);
      DecodeAppend(j, base, Payload(j, ms));
    }
  }

  lemma {:induction false} OneLine(j: Json, s: string)
    requires '\n' !in s
    ensures DecodeLog(j, s) == DecodeLine(j, s)
    ensures DecodeLog(j, s + "\n") == DecodeLine(j, s + "\n")
  {
    LineEndUnterminated(s);
    if s == [] {
      assert s + "\n" == "\n";
      BlankLine(j);
      assert SkipBlanks("\n") == SkipBlanks("\n"[1..]) == [];
    } else {
      assert s[..|s|] == s && s[|s|..] == [];
      assert (s + "\n")[..|s| + 1] == s + "\n" && (s + "\n")[|s| + 1..] == [];
    }
  }

  lemma {:induction false} FirstLine(j: Json, s: string, m: Message, rest: seq<Message>)
    ensures s + Payload(j, [m] + rest) == (s + j.dumps(m) + "\n") + Payload(j, rest)
  {
    assert ([m] + rest)[1..] == rest;
    assert Payload(j, [m] + rest) == j.dumps(m) + "\n" + Payload(j, rest);
  }

  lemma {:induction false} GluedFirst(j: Json, s: string, m: Message)
    requires Lawful(j) && Gluing(j) && '\n' !in s
    ensures DecodeLog(j, s + j.dumps(m) + "\n") == DecodeLine(j, s) + (if Whole(j, s) then [m] else [])
  {
    var line := s + j.dumps(m);
    assert DumpsIsLine(j.dumps(m));
    OneLine(j, line);
    assert line + "\n" == s + (j.dumps(m) + "\n");
    GluedLine(j, s, m);
  }

  lemma {:induction false} GluedEnd(j: Json, s: string, m: Message, rest: seq<Message>)
    requires Lawful(j) && Gluing(j) && '\n' !in s
    ensures DecodeLog(j, s + Payload(j, [m] + rest)) == DecodeLine(j, s) + (if Whole(j, s) then [m] else []) + rest
  {
    var line := s + j.dumps(m) + "\n";
    FirstLine(j, s, m, rest);
    DecodeAppend(j, line, Payload(j, rest));
    DecodePayload(j, rest);
    GluedFirst(j, s, m);
  }

  /** The log with its last line glued to the first message of a batch. */
  lemma {:induction false} GluedLog(j: Json, base: string, s: string, m: Message, rest: seq<Message>)
    requires Lawful(j) && Gluing(j) && !Torn(base) && '\n' !in s
    ensures DecodeLog(j, base + s + Payload(j, [m] + rest)) ==
            DecodeLog(j, base + s) + (if Whole(j, s) then [m] else []) + rest
  {
    var p := Payload(j, [m] + rest);
    Assoc(base, s, p);
    DecodeAppend(j, base, s + p);
    GluedEnd(j, s, m, rest);
    OneLine(j, s);
    DecodeAppend(j, base, s);
    var kept := if Whole(j, s) then [m] else [];
    Assoc(DecodeLog(j, base), DecodeLine(j, s), kept);
    Assoc(DecodeLog(j, base), DecodeLine(j, s) + kept, rest);
  }

  lemma {:induction false} AtLineEnd(j: Json, log: string, ms: seq<Message>) returns (base: string)
    requires ms != []
    ensures !Torn(base) && '\n' !in OpenLine(log) && base + OpenLine(log) == log
    ensures Written(j, log, false, ms) == base + OpenLine(log) + Payload(j, [ms[0]] + ms[1..])
  {
    base := log[..|log| - |OpenLine(log)|];
    assert base + OpenLine(log) == log;
    assert [ms[0]] + ms[1..] == ms;
  }

  /** Without the newline of the guard, a batch behind an unfinished line loses its first message exactly when that
      line is not whole; the other messages are read. */
  lemma {:induction false} UnguardedWrite(j: Json, log: string, ms: seq<Message>)
    requires Lawful(j) && Gluing(j) && ms != []
    ensures DecodeLog(j, Written(j, log, false, ms)) ==
            DecodeLog(j, log) + (if Whole(j, OpenLine(log)) then [ms[0]] else []) + ms[1..]
  {
    var base := AtLineEnd(j, log, ms);
    GluedLog(j, base, OpenLine(log), ms[0], ms[1..]);
  }

  /** A write that follows the newline of the guard, or finds the last line whole. */
  predicate Safe(j: Json, log: string, torn: bool) {
    torn || Whole(j, OpenLine(log))
  }

  /** A write extends the decoded log by exactly its messages if and only if it is safe (or writes none). */
  lemma {:induction false} WriteExtendsLog(j: Json, log: string, torn: bool, ms: seq<Message>)
    requires Lawful(j) && Gluing(j)
    ensures DecodeLog(j, Written(j, log, torn, ms)) == DecodeLog(j, log) + ms <==> ms == [] || Safe(j, log, torn)
  {
    if torn || ms == [] {
      FinishedWrite(j, log, torn, ms);
    } else {
      UnguardedWrite(j, log, ms);
      assert [ms[0]] + ms[1..] == ms;
      Assoc(DecodeLog(j, log), [ms[0]], ms[1..]);
    }
  }

  /** The text after one append with nothing between the guard and the write. */
  function Appended(j: Json, log: string, ms: seq<Message>): string {
    Written(j, log, Torn(log), ms)
  }

  /** Then a post extends the decoded log by exactly its messages, whatever the file ended in. */
  lemma {:induction false} AppendExtendsLog(j: Json, log: string, ms: seq<Message>)
    requires Lawful(j)
    ensures DecodeLog(j, Appended(j, log, ms)) == DecodeLog(j, log) + ms
  {
    FinishedWrite(j, log, Torn(log), ms);
  }

  // ----- id allocation ----------------------------------------------------------------------

  function Max(a: int, b: int): int {
    if a >= b then a else b
  }

  /** The highest number used by `who`, 0 when there is none. */
  function MaxNumber(j: Json, who: string, ms: seq<Message>): (hi: nat)
  {
    if ms == [] then 0
    else
      var hi := MaxNumber(j, who, ms[..|ms| - 1]);
      var id := ms[|ms| - 1].id;
      if id.Some? && OwnNumber(j, who, id.value).Some?
      then Max(hi, OwnNumber(j, who, id.value).value)
      else hi
  }

  function IdsOf(ms: seq<Message>): set<string> {
    set m | m in ms && m.id.Some? :: m.id.value
  }

  method MaxId(j: Json, who: string, log: string) returns (hi: nat)
    ensures hi == MaxNumber(j, who, DecodeLog(j, log))
  {
    hi := 0;
    var ms := DecodeLog(j, log);
    for i := 0 to |ms|
      invariant hi == MaxNumber(j, who, ms[..i])
    {
      assert ms[..i + 1][..i] == ms[..i];
      if ms[i].id.Some? {
        var n := OwnNumber(j, who, ms[i].id.value);
        if n.Some? && n.value > hi {
          hi := n.value;
        }
      }
    }
    assert ms[..|ms|] == ms;
  }

  lemma {:induction false} MaxNumberBounds(j: Json, who: string, ms: seq<Message>, m: Message)
    requires m in ms && m.id.Some? && OwnNumber(j, who, m.id.value).Some?
    ensures OwnNumber(j, who, m.id.value).value <= MaxNumber(j, who, ms)
  {
    var n := |ms| - 1;
    if m != ms[n] {
      assert m in ms[..n];
      MaxNumberBounds(j, who, ms[..n], m);
    }
  }

  /** The id printer of one author. */
  function Ids(who: string): nat -> string {
    (n: nat) => FormatId(who, n)
  }

  ghost predicate Injective(id: nat -> string) {
    forall a: nat, b: nat {:trigger id(a), id(b)} :: id(a) == id(b) ==> a == b
  }

  lemma {:induction false} IdsInjective(who: string)
    ensures Injective(Ids(who))
  {
    forall a: nat, b: nat ensures Ids(who)(a) == Ids(who)(b) ==> a == b {
      FormatIdInjective(who, a, who, b);
    }
  }

  /** The first number from `n` on whose id is not taken. */
  function NextFree(id: nat -> string, n: nat, taken: set<string>): (m: nat)
    requires Injective(id)
    ensures n <= m && id(m) !in taken
    ensures id(n) !in taken ==> m == n
    decreases taken
  {
    if id(n) in taken then NextFree(id, n + 1, taken - {id(n)}) else n
  }

  function MessageOf(who: string, id: string, ts: string, d: Draft): Message {
    Message(Some(id), who, ts, d.kind, d.ref,
            if |d.body| <= 8192 then d.body else d.body[..8192], d.data)
  }

  /** The numbers given to `k` messages after `seqNo` when `taken` are in use. */
  function Numbers(id: nat -> string, seqNo: nat, taken: set<string>, k: nat): (ns: seq<nat>)
    requires Injective(id)
    ensures |ns| == k
    decreases k
  {
    if k == 0 then []
    else
      var n := NextFree(id, seqNo + 1, taken);
      [n] + Numbers(id, n, taken + {id(n)}, k - 1)
  }

  /** Numbers given out rise strictly, start above `seqNo` and avoid every id in use. */
  lemma {:induction false} NumbersAreFresh(id: nat -> string, seqNo: nat, taken: set<string>, k: nat)
    requires Injective(id)
    ensures forall i :: 0 <= i < k ==> seqNo < Numbers(id, seqNo, taken, k)[i]
    ensures forall i :: 0 <= i < k ==> id(Numbers(id, seqNo, taken, k)[i]) !in taken
    ensures forall a, b :: 0 <= a < b < k ==> Numbers(id, seqNo, taken, k)[a] < Numbers(id, seqNo, taken, k)[b]
    decreases k
  {
    if k > 0 {
      var n := NextFree(id, seqNo + 1, taken);
      NumbersAreFresh(id, n, taken + {id(n)}, k - 1);
      var ns, rest := Numbers(id, seqNo, taken, k), Numbers(id, n, taken + {id(n)}, k - 1);
      assert ns == [n] + rest;
      forall i | 0 <= i < k ensures seqNo < ns[i] && id(ns[i]) !in taken {
        if i > 0 {
          assert ns[i] == rest[i - 1];
        }
      }
    }
  }

  lemma {:induction false} NumbersAreConsecutive(id: nat -> string, seqNo: nat, taken: set<string>, k: nat, i: nat)
    requires Injective(id) && i < k
    requires forall n: nat :: n > seqNo ==> id(n) !in taken
    ensures Numbers(id, seqNo, taken, k)[i] == seqNo + 1 + i
    decreases k
  {
    if i > 0 {
      NumbersAreConsecutive(id, seqNo + 1, taken + {id(seqNo + 1)}, k - 1, i - 1);
    }
  }

  /** No id of `who` above the highest number is in the log. */
  lemma {:induction false} NoIdAboveMax(j: Json, who: string, ms: seq<Message>, n: nat)
    requires Lawful(j) && n > MaxNumber(j, who, ms)
    ensures FormatId(who, n) !in IdsOf(ms)
  {
    if FormatId(who, n) in IdsOf(ms) {
      var m :| m in ms && m.id == Some(FormatId(who, n));
      OwnNumberOfFormat(j, who, n);
      MaxNumberBounds(j, who, ms, m);
    }
  }

  /** When both reads of the log see the same text the skip loop never iterates: the numbers follow
      the highest one directly. */
  lemma {:induction false} UndisturbedNumbers(j: Json, who: string, log: string, k: nat, i: nat)
    requires Lawful(j) && i < k
    ensures Injective(Ids(who))
    ensures var ms := DecodeLog(j, log);
      Numbers(Ids(who), MaxNumber(j, who, ms), IdsOf(ms), k)[i] == MaxNumber(j, who, ms) + 1 + i
  {
    IdsInjective(who);
    var ms := DecodeLog(j, log);
    forall n: nat | n > MaxNumber(j, who, ms) ensures Ids(who)(n) !in IdsOf(ms) {
      NoIdAboveMax(j, who, ms, n);
    }
    NumbersAreConsecutive(Ids(who), MaxNumber(j, who, ms), IdsOf(ms), k, i);
  }

  /** The messages a post writes for its drafts, numbered after `seqNo` around `taken`. */
  function Batch(who: string, id: nat -> string, seqNo: nat, taken: set<string>, ts: seq<string>, ds: seq<Draft>): (ms: seq<Message>)
    requires Injective(id) && |ts| == |ds|
    ensures |ms| == |ds|
    decreases |ds|
  {
    if ds == [] then []
    else
      var n := NextFree(id, seqNo + 1, taken);
      [MessageOf(who, id(n), ts[0], ds[0])] + Batch(who, id, n, taken + {id(n)}, ts[1..], ds[1..])
  }

  lemma {:induction false} BatchAt(who: string, id: nat -> string, seqNo: nat, taken: set<string>,
                                   ts: seq<string>, ds: seq<Draft>, i: nat)
    requires Injective(id) && i < |ts| == |ds|
    ensures Batch(who, id, seqNo, taken, ts, ds)[i]
         == MessageOf(who, id(Numbers(id, seqNo, taken, |ds|)[i]), ts[i], ds[i])
    decreases |ds|
  {
    if i > 0 {
      var n := NextFree(id, seqNo + 1, taken);
      BatchAt(who, id, n, taken + {id(n)}, ts[1..], ds[1..], i - 1);
    }
  }

  /** The same, from the two reads of the log. */
  function BatchFor(j: Json, who: string, readMax: string, readIds: string, ts: seq<string>, ds: seq<Draft>): (ms: seq<Message>)
    requires |ts| == |ds|
    ensures |ms| == |ds|
  {
    IdsInjective(who);
    Batch(who, Ids(who), MaxNumber(j, who, DecodeLog(j, readMax)), IdsOf(DecodeLog(j, readIds)), ts, ds)
  }

  /** Characters that must never reach the log: U+FFFD and the CJK block. */
  predicate Clean(line: string) {
    forall i :: 0 <= i < |line| ==> line[i] != '\U{FFFD}' && !('\U{4E00}' <= line[i] <= '\U{9FFF}')
  }

  datatype PostResult = Posted(log: string, messages: seq<Message>) | Refused

  method IsClean(line: string) returns (ok: bool)
    ensures ok == Clean(line)
  {
    for i := 0 to |line|
      invariant forall k :: 0 <= k < i ==> line[k] != '\U{FFFD}' && !('\U{4E00}' <= line[k] <= '\U{9FFF}')
    {
      if line[i] == '\U{FFFD}' || '\U{4E00}' <= line[i] <= '\U{9FFF}' {
        return false;
      }
    }
    ok := true;
  }

  /** The skip loop over ids already in use. */
  method SkipTaken(id: nat -> string, start: nat, taken: set<string>) returns (n: nat)
    requires Injective(id)
    ensures n == NextFree(id, start, taken)
  {
    n := start;
    ghost var left := taken;
    while id(n) in taken
      invariant start <= n
      invariant NextFree(id, start, taken) == NextFree(id, n, left)
      invariant left <= taken
      invariant forall q: nat :: q >= n && id(q) in taken ==> id(q) in left
      decreases left
    {
      left := left - {id(n)};
      n := n + 1;
    }
  }

  predicate AllClean(j: Json, ms: seq<Message>) {
    forall i :: 0 <= i < |ms| ==> Clean(j.dumps(ms[i]))
  }

  lemma {:induction false} BatchUnfold(who: string, id: nat -> string, seqNo: nat, taken: set<string>, ts: seq<string>, ds: seq<Draft>, i: nat)
    requires Injective(id) && i < |ts| == |ds|
    ensures var n := NextFree(id, seqNo + 1, taken);
      Batch(who, id, seqNo, taken, ts[i..], ds[i..])
      == [MessageOf(who, id(n), ts[i], ds[i])] + Batch(who, id, n, taken + {id(n)}, ts[i + 1..], ds[i + 1..])
  {
    assert ts[i..][1..] == ts[i + 1..] && ds[i..][1..] == ds[i + 1..];
  }

  lemma {:induction false} AllCleanSplit(j: Json, a: seq<Message>, m: Message, b: seq<Message>)
    ensures AllClean(j, a + ([m] + b)) <==> AllClean(j, a + [m]) && AllClean(j, b)
    ensures AllClean(j, a + [m]) <==> AllClean(j, a) && Clean(j.dumps(m))
    ensures a + ([m] + b) == (a + [m]) + b
  {
    var s := a + ([m] + b);
    assert s == (a + [m]) + b;
    assert forall i :: 0 <= i < |a| + 1 ==> s[i] == (a + [m])[i];
    assert forall i :: 0 <= i < |b| ==> s[|a| + 1 + i] == b[i];
    assert (a + [m])[|a|] == m;
    assert forall i :: 0 <= i < |a| ==> (a + [m])[i] == a[i];
  }

  /** Numbers and checks one draft. */
  method NumberDraft(j: Json, who: string, id: nat -> string, seqNo: nat, taken: set<string>, t: string, d: Draft)
    returns (n: nat, m: Message, clean: bool)
    requires Injective(id)
    ensures n == NextFree(id, seqNo + 1, taken)
    ensures m == MessageOf(who, id(n), t, d)
    ensures clean == Clean(j.dumps(m))
  {
    n := SkipTaken(id, seqNo + 1, taken);
    m := MessageOf(who, id(n), t, d);
    clean := IsClean(j.dumps(m));
  }

  /** Numbers and checks every draft before anything is written. */
  method BuildBatch(j: Json, who: string, id: nat -> string, seqNo0: nat, taken0: set<string>, ts: seq<string>, ds: seq<Draft>)
    returns (clean: bool, ms: seq<Message>)
    requires Injective(id) && |ts| == |ds|
    ensures clean == AllClean(j, Batch(who, id, seqNo0, taken0, ts, ds))
    ensures clean ==> ms == Batch(who, id, seqNo0, taken0, ts, ds)
  {
    var seqNo, taken := seqNo0, taken0;
    ms := [];
    ghost var rest := Batch(who, id, seqNo, taken, ts, ds);
    assert ts[0..] == ts && ds[0..] == ds;
    for i := 0 to |ds|
      invariant rest == Batch(who, id, seqNo, taken, ts[i..], ds[i..])
      invariant Batch(who, id, seqNo0, taken0, ts, ds) == ms + rest
      invariant AllClean(j, ms)
    {
      BatchUnfold(who, id, seqNo, taken, ts, ds, i);
      var n, m, ok := NumberDraft(j, who, id, seqNo, taken, ts[i], ds[i]);
      rest := rest[1..];
      AllCleanSplit(j, ms, m, rest);
      if !ok {
        return false, ms;
      }
      ms, seqNo, taken := ms + [m], n, taken + {id(n)};
    }
    clean := true;
  }

  /** One post under the lock.  `readMax`, `readIds`, `guarded` and `log` are what the four opens of the file see.
      Either the batch is written, and the log is extended by exactly the new messages if and only if the guard's
      newline was written or the last line is whole; or nothing is written. */
  method PostLocked(j: Json, who: string, readMax: string, readIds: string, guarded: string, log: string,
                    ts: seq<string>, ds: seq<Draft>) returns (r: PostResult)
    requires Lawful(j) && Gluing(j) && |ts| == |ds|
    ensures r.Posted? <==> AllClean(j, BatchFor(j, who, readMax, readIds, ts, ds))
    ensures r.Posted? ==>
              && r.messages == BatchFor(j, who, readMax, readIds, ts, ds)
              && r.log == Written(j, log, Torn(guarded), r.messages)
              && (DecodeLog(j, r.log) == DecodeLog(j, log) + r.messages <==> ds == [] || Safe(j, log, Torn(guarded)))
  {
    var seqNo := MaxId(j, who, readMax);
    IdsInjective(who);
    var clean, ms := BuildBatch(j, who, Ids(who), seqNo, IdsOf(DecodeLog(j, readIds)), ts, ds);
    if !clean {
      return Refused;
    }
    var torn := guarded != [] && guarded[|guarded| - 1] != '\n';
    WriteExtendsLog(j, log, torn, ms);
    r := Posted(Written(j, log, torn, ms), ms);
  }
}

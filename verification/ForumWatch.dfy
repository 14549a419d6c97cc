/** The forum watcher (tools/forum_watch.py, `cycle`): a cursor over the numbered lines of the shared log, the messages
    of others that are new since, and the digest it posts about them as FREEBU.

    Named assumptions.  The watcher is the only owner of its cursor, and nothing is appended between the newline guard
    and the write of its own posts.
 */
module ForumWatch {
  import opened Basics
  import opened ForumPost

  /** A message with the number of the line it stands on. */
  datatype Item = Item(line: nat, msg: Message)

  const ME := "FREEBU"

  predicate Theirs(m: Message) {
    m.sender != ME
  }

  // ----- the numbered log -----------------------------------------------------------------------------------

  function OnLine(n: nat, ms: seq<Message>): (items: seq<Item>)
    ensures |items| == |ms| && forall i :: 0 <= i < |ms| ==> items[i] == Item(n, ms[i])
  {
    seq(|ms|, i requires 0 <= i < |ms| => Item(n, ms[i]))
  }

  /** The messages of a text whose first line has number `n + 1`. */
  function Items(j: Json, t: string, n: nat): seq<Item>
    decreases |t|
  {
    if t == [] then []
    else OnLine(n + 1, DecodeLine(j, t[..LineEnd(t)])) + Items(j, t[LineEnd(t)..], n + 1)
  }

  /** Lines of a text, an unfinished last one included. */
  function Lines(t: string): nat
    decreases |t|
  {
    if t == [] then 0 else 1 + Lines(t[LineEnd(t)..])
  }

  lemma {:induction false} FirstLine(a: string, b: string, k: nat)
    requires a != [] && !Torn(a) && k == LineEnd(a)
    ensures LineEnd(a + b) == k <= |a| && (a + b)[..k] == a[..k] && (a + b)[k..] == a[k..] + b && !Torn(a[k..])
  {
    LineEndOfTerminated(a, b);
  }

  lemma {:induction false} LinesAppend(a: string, b: string)
    requires !Torn(a)
    ensures Lines(a + b) == Lines(a) + Lines(b)
    decreases |a|
  {
    if a == [] {
      assert a + b == b;
    } else {
      FirstLine(a, b, LineEnd(a));
      LinesAppend(a[LineEnd(a)..], b);
    }
  }

  lemma {:induction false} ItemsStep(j: Json, a: string, b: string, n: nat, k: nat, more: seq<Item>)
    requires a != [] && !Torn(a) && k == LineEnd(a)
    requires Items(j, a[k..] + b, n + 1) == Items(j, a[k..], n + 1) + more
    ensures Items(j, a + b, n) == Items(j, a, n) + more
  {
    FirstLine(a, b, k);
    var line := OnLine(n + 1, DecodeLine(j, a[..k]));
    Assoc(line, Items(j, a[k..], n + 1), more);
    assert Items(j, a, n) == line + Items(j, a[k..], n + 1);
    assert Items(j, a + b, n) == line + Items(j, a[k..] + b, n + 1);
  }

  lemma {:induction false} ItemsAppend(j: Json, a: string, b: string, n: nat, m: nat)
    requires !Torn(a) && m == n + Lines(a)
    ensures Items(j, a + b, n) == Items(j, a, n) + Items(j, b, m)
    decreases |a|
  {
    if a == [] {
      assert a + b == b;
      assert Items(j, a, n) == [];
    } else {
      var k := LineEnd(a);
      FirstLine(a, b, k);
      ItemsAppend(j, a[k..], b, n + 1, m);
      ItemsStep(j, a, b, n, k, Items(j, b, m));
    }
  }

  /** An unfinished line and the same line finished hold the same messages. */
  lemma {:induction false} ItemsOfLine(j: Json, s: string, n: nat)
    requires Lawful(j) && s != [] && '\n' !in s
    ensures Items(j, s, n) == OnLine(n + 1, DecodeLine(j, s)) == Items(j, s + "\n", n)
    ensures Lines(s) == 1 == Lines(s + "\n")
  {
    LineEndUnterminated(s);
    var t := s + "\n";
    assert s[..|s|] == s && s[|s|..] == [] && t[..|s| + 1] == t && t[|s| + 1..] == [];
    assert LineEnd(t) == |s| + 1 && LineEnd(s) == |s|;
    DecodeLineNewline(j, s);
    assert Items(j, [], n + 1) == [] && Lines([]) == 0;
    assert OnLine(n + 1, DecodeLine(j, s)) + [] == OnLine(n + 1, DecodeLine(j, s));
  }

  lemma {:induction false} ItemsWithin(j: Json, t: string, n: nat)
    ensures forall i :: 0 <= i < |Items(j, t, n)| ==> n < Items(j, t, n)[i].line <= n + Lines(t)
    decreases |t|
  {
    if t != [] {
      ItemsWithin(j, t[LineEnd(t)..], n + 1);
    }
  }

  lemma {:induction false} ItemsInOrder(j: Json, t: string, n: nat)
    ensures forall i, k :: 0 <= i < k < |Items(j, t, n)| ==> Items(j, t, n)[i].line <= Items(j, t, n)[k].line
    decreases |t|
  {
    if t != [] {
      ItemsInOrder(j, t[LineEnd(t)..], n + 1);
      ItemsWithin(j, t[LineEnd(t)..], n + 1);
    }
  }

  // ----- what is new ----------------------------------------------------------------------------------------

  /** Of the first `k` items, the messages of others on lines after `cursor`. */
  function FreshUpTo(items: seq<Item>, cursor: nat, k: nat): seq<Item>
    requires k <= |items|
  {
    if k == 0 then []
    else FreshUpTo(items, cursor, k - 1) +
         (if items[k - 1].line > cursor && Theirs(items[k - 1].msg) then [items[k - 1]] else [])
  }

  function Fresh(items: seq<Item>, cursor: nat): seq<Item> {
    FreshUpTo(items, cursor, |items|)
  }

  lemma {:induction false} FreshPrefix(a: seq<Item>, b: seq<Item>, cursor: nat, k: nat)
    requires k <= |a|
    ensures FreshUpTo(a + b, cursor, k) == FreshUpTo(a, cursor, k)
  {
    if k > 0 {
      FreshPrefix(a, b, cursor, k - 1);
    }
  }

  lemma {:induction false} FreshAppendUpTo(a: seq<Item>, b: seq<Item>, cursor: nat, k: nat)
    requires k <= |b|
    ensures FreshUpTo(a + b, cursor, |a| + k) == Fresh(a, cursor) + FreshUpTo(b, cursor, k)
  {
    if k == 0 {
      FreshPrefix(a, b, cursor, |a|);
    } else {
      FreshAppendUpTo(a, b, cursor, k - 1);
      assert (a + b)[|a| + k - 1] == b[k - 1];
    }
  }

  lemma {:induction false} FreshAppend(a: seq<Item>, b: seq<Item>, cursor: nat)
    ensures Fresh(a + b, cursor) == Fresh(a, cursor) + Fresh(b, cursor)
  {
    FreshAppendUpTo(a, b, cursor, |b|);
  }

  predicate AllAfter(items: seq<Item>, cursor: nat) {
    forall i :: 0 <= i < |items| ==> items[i].line > cursor
  }

  predicate NoneAfter(items: seq<Item>, cursor: nat) {
    forall i :: 0 <= i < |items| ==> items[i].line <= cursor
  }

  lemma {:induction false} SameFresh(items: seq<Item>, c: nat, d: nat, k: nat)
    requires AllAfter(items, c) && AllAfter(items, d) && k <= |items|
    ensures FreshUpTo(items, c, k) == FreshUpTo(items, d, k)
  {
    if k > 0 {
      SameFresh(items, c, d, k - 1);
    }
  }

  lemma {:induction false} NothingFresh(items: seq<Item>, c: nat, k: nat)
    requires NoneAfter(items, c) && k <= |items|
    ensures FreshUpTo(items, c, k) == []
  {
    if k > 0 {
      NothingFresh(items, c, k - 1);
    }
  }

  lemma {:induction false} OwnNotFresh(items: seq<Item>, c: nat, k: nat)
    requires k <= |items| && forall i :: 0 <= i < |items| ==> !Theirs(items[i].msg)
    ensures FreshUpTo(items, c, k) == []
  {
    if k > 0 {
      OwnNotFresh(items, c, k - 1);
    }
  }

  // ----- what an append does to the numbered log ------------------------------------------------------------

  /** The log up to its unfinished last line. */
  function Base(log: string): (b: string)
    ensures b + OpenLine(log) == log && !Torn(b)
  {
    log[..|log| - |OpenLine(log)|]
  }

  function LastItems(j: Json, log: string): seq<Item> {
    if OpenLine(log) == [] then [] else OnLine(Lines(log), DecodeLine(j, OpenLine(log)))
  }

  lemma {:induction false} OpenLines(j: Json, log: string)
    requires Lawful(j)
    ensures Lines(log) == Lines(Base(log)) + (if OpenLine(log) == [] then 0 else 1)
  {
    LinesAppend(Base(log), OpenLine(log));
    if OpenLine(log) != [] {
      ItemsOfLine(j, OpenLine(log), 0);
    }
  }

  lemma {:induction false} LogItems(j: Json, log: string)
    requires Lawful(j)
    ensures Items(j, log, 0) == Items(j, Base(log), 0) + LastItems(j, log)
    ensures Lines(log) == Lines(Base(log)) + (if OpenLine(log) == [] then 0 else 1)
  {
    var b, s := Base(log), OpenLine(log);
    OpenLines(j, log);
    ItemsAppend(j, b, s, 0, Lines(b));
    if s != [] {
      ItemsOfOpenLine(j, s, Lines(b), Lines(log));
    }
  }

  lemma {:induction false} ItemsOfOpenLine(j: Json, s: string, n: nat, l: nat)
    requires Lawful(j) && s != [] && '\n' !in s && l == n + 1
    ensures Items(j, s, n) == OnLine(l, DecodeLine(j, s))
  {
    ItemsOfLine(j, s, n);
  }

  /** The unfinished last line is still ahead of the cursor, or the text starts a new line. */
  predicate Careful(cursor: nat, log: string, text: string) {
    cursor <= Lines(Base(log)) || text == [] || text[0] == '\n'
  }

  /** Finishing the line `s` behind the finished text `b`. */
  lemma {:induction false} FinishedLine(j: Json, b: string, s: string)
    requires Lawful(j) && !Torn(b) && '\n' !in s
    ensures Items(j, b + (s + "\n"), 0) == Items(j, b + s, 0) && Lines(b + (s + "\n")) >= Lines(b + s)
  {
    ItemsAppend(j, b, s + "\n", 0, Lines(b));
    ItemsAppend(j, b, s, 0, Lines(b));
    LinesAppend(b, s + "\n");
    LinesAppend(b, s);
    if s != [] {
      ItemsOfLine(j, s, Lines(b));
    } else {
      assert s + "\n" == "\n";
      BlankItems(j, Lines(b));
    }
  }

  lemma {:induction false} ClosedItems(j: Json, log: string)
    requires Lawful(j)
    ensures !Torn(log + "\n") && Items(j, log + "\n", 0) == Items(j, log, 0) && Lines(log + "\n") >= Lines(log)
  {
    var b, s := Base(log), OpenLine(log);
    Assoc(b, s, "\n");
    FinishedLine(j, b, s);
  }

  lemma {:induction false} BlankItems(j: Json, n: nat)
    ensures Items(j, "\n", n) == []
  {
    assert LineEnd("\n") == 1 && "\n"[..1] == "\n" && "\n"[1..] == [];
    assert SkipBlanks("\n") == SkipBlanks("\n"[1..]) == [];
    assert DecodeLine(j, "\n") == [];
    assert Items(j, [], n + 1) == [];
  }

  /** What was in the log and what is in it after an append: a common part `b` and, all behind the cursor, `o` before
      and `n` after. */
  lemma {:induction false} AppendSplits(j: Json, log: string, text: string, cursor: nat) returns (b: seq<Item>, o: seq<Item>, n: seq<Item>)
    requires Lawful(j) && cursor <= Lines(log) && Careful(cursor, log, text)
    ensures Items(j, log, 0) == b + o && Items(j, log + text, 0) == b + n
    ensures AllAfter(o, cursor) && AllAfter(n, cursor)
  {
    if text == [] {
      b, o, n := Items(j, log, 0), [], [];
      assert log + text == log;
    } else if text[0] == '\n' {
      b, o := Items(j, log, 0), [];
      n := NewLineItems(j, log, text);
    } else {
      var base, s := Base(log), OpenLine(log);
      LogItems(j, log);
      b, o := Items(j, base, 0), LastItems(j, log);
      Assoc(base, s, text);
      ItemsAppend(j, base, s + text, 0, Lines(base));
      n := Items(j, s + text, Lines(base));
      ItemsWithin(j, s + text, Lines(base));
    }
  }

  lemma {:induction false} NewLineItems(j: Json, log: string, text: string) returns (n: seq<Item>)
    requires Lawful(j) && text != [] && text[0] == '\n'
    ensures Items(j, log + text, 0) == Items(j, log, 0) + n && AllAfter(n, Lines(log))
  {
    var closed := log + "\n";
    ClosedItems(j, log);
    assert log + text == closed + text[1..];
    ItemsAppend(j, closed, text[1..], 0, Lines(closed));
    n := Items(j, text[1..], Lines(closed));
    ItemsWithin(j, text[1..], Lines(closed));
  }

  // ----- the watcher's own posts ----------------------------------------------------------------------------

  predicate AllMine(ms: seq<Message>) {
    forall i :: 0 <= i < |ms| ==> ms[i].sender == ME
  }

  predicate MineItems(items: seq<Item>) {
    forall i :: 0 <= i < |items| ==> !Theirs(items[i].msg)
  }

  lemma {:induction false} PayloadItems(j: Json, ms: seq<Message>, n: nat)
    requires Lawful(j) && AllMine(ms)
    ensures MineItems(Items(j, Payload(j, ms), n))
    decreases |ms|
  {
    if ms != [] {
      var line := j.dumps(ms[0]) + "\n";
      assert DumpsIsLine(j.dumps(ms[0]));
      ItemsOfLine(j, j.dumps(ms[0]), n);
      LineMine(j, ms[0]);
      PayloadItems(j, ms[1..], n + 1);
      ItemsAppend(j, line, Payload(j, ms[1..]), n, n + 1);
    }
  }

  lemma {:induction false} LineMine(j: Json, m: Message)
    requires Lawful(j)
    ensures DecodeLine(j, j.dumps(m)) == [m]
  {
    assert DumpsIsLine(j.dumps(m));
    DecodeDumpsLine(j, m);
    OneLine(j, j.dumps(m));
    DecodeLineNewline(j, j.dumps(m));
  }

  function Tail(j: Json, ms: seq<Message>): string {
    if ms == [] then "\n" else Payload(j, ms)
  }

  lemma {:induction false} TailItems(j: Json, ms: seq<Message>, n: nat)
    requires Lawful(j) && AllMine(ms)
    ensures MineItems(Items(j, Tail(j, ms), n)) && AllAfter(Items(j, Tail(j, ms), n), n)
  {
    ItemsWithin(j, Tail(j, ms), n);
    if ms == [] {
      BlankItems(j, n);
    } else {
      PayloadItems(j, ms, n);
    }
  }

  /** The log as the guard of a post leaves it. */
  lemma {:induction false} GuardedItems(j: Json, log: string, closed: string)
    requires Lawful(j) && closed == if Torn(log) then log + "\n" else log
    ensures !Torn(closed) && Items(j, closed, 0) == Items(j, log, 0) && Lines(closed) >= Lines(log)
  {
    ClosedItems(j, log);
  }

  /** A post of the watcher adds only its own messages, on new lines. */
  lemma {:induction false} OwnAppend(j: Json, log: string, ms: seq<Message>) returns (n: seq<Item>)
    requires Lawful(j) && AllMine(ms)
    ensures Items(j, Appended(j, log, ms), 0) == Items(j, log, 0) + n && MineItems(n) && AllAfter(n, Lines(log))
  {
    var closed := if Torn(log) then log + "\n" else log;
    GuardedItems(j, log, closed);
    assert Appended(j, log, ms) == closed + Tail(j, ms);
    ItemsAppend(j, closed, Tail(j, ms), 0, Lines(closed));
    TailItems(j, ms, Lines(closed));
    n := Items(j, Tail(j, ms), Lines(closed));
  }

  // ----- runs -----------------------------------------------------------------------------------------------

  /** The JSON library, and whether a body reads like a poll. */
  datatype Config = Config(json: Json, poll: string -> bool)

  /** `counted` is the history of messages that were new in some cycle; `pending` that the cycle in progress has still
      to post its digest. */
  datatype State = State(log: string, cursor: nat, counted: seq<Item>, pending: bool, digests: nat)

  datatype Action =
    | Foreign(text: string)
    | Look
    | Alert(ms: seq<Message>)
    | Digest(ms: seq<Message>)

  predicate Heartbeat(c: Config, m: Message) {
    var id := if m.id.Some? then m.id.value else "";
    StartsWith(id, "OPMUSE-POLL-") || StartsWith(id, "OPMUSE-HB-") || c.poll(m.body)
  }

  predicate Substance(c: Config, items: seq<Item>) {
    exists i :: 0 <= i < |items| && !Heartbeat(c, items[i].msg)
  }

  function ItemsOf(c: Config, s: State): seq<Item> {
    Items(c.json, s.log, 0)
  }

  /** The line of the last message, where the cursor goes. */
  function NewCursor(items: seq<Item>, cursor: nat): nat {
    if items == [] then cursor else items[|items| - 1].line
  }

  predicate Can(c: Config, s: State, a: Action) {
    match a
    case Foreign(_) => true
    case Look => true
    case Alert(ms) => AllMine(ms)
    case Digest(ms) => s.pending && AllMine(ms)
  }

  function Do(c: Config, s: State, a: Action): State
    requires Can(c, s, a)
  {
    match a
    case Foreign(text) => s.(log := s.log + text)
    case Look =>
      var items := ItemsOf(c, s);
      var news := Fresh(items, s.cursor);
      s.(cursor := NewCursor(items, s.cursor), counted := s.counted + news, pending := Substance(c, news))
    case Alert(ms) => s.(log := Appended(c.json, s.log, ms))
    case Digest(ms) => s.(log := Appended(c.json, s.log, ms), pending := false, digests := s.digests + 1)
  }

  predicate CanRun(c: Config, s: State, acts: seq<Action>)
    decreases |acts|
  {
    acts == [] || (Can(c, s, acts[0]) && CanRun(c, Do(c, s, acts[0]), acts[1..]))
  }

  function Run(c: Config, s: State, acts: seq<Action>): State
    requires CanRun(c, s, acts)
    decreases |acts|
  {
    if acts == [] then s else Run(c, Do(c, s, acts[0]), acts[1..])
  }

  /** Every foreign append is careful about where the cursor stands. */
  predicate CarefulRun(c: Config, s: State, acts: seq<Action>)
    requires CanRun(c, s, acts)
    decreases |acts|
  {
    acts == [] ||
    ((acts[0].Foreign? ==> Careful(s.cursor, s.log, acts[0].text)) && CarefulRun(c, Do(c, s, acts[0]), acts[1..]))
  }

  // ----- every message once ---------------------------------------------------------------------------------

  predicate Stands(items: seq<Item>, cursor: nat) {
    cursor == 0 || exists i :: 0 <= i < |items| && items[i].line == cursor
  }

  /** What was counted, followed by what the next look will count, is all that others wrote after `start`. */
  predicate Complete(items: seq<Item>, start: nat, cursor: nat, counted: seq<Item>) {
    counted + Fresh(items, cursor) == Fresh(items, start)
  }

  predicate Inv(c: Config, s: State, start: nat) {
    && start <= s.cursor <= Lines(s.log) && Stands(ItemsOf(c, s), s.cursor)
    && Complete(ItemsOf(c, s), start, s.cursor, s.counted)
  }

  lemma {:induction false} Cancel<T>(a: seq<T>, b: seq<T>, c: seq<T>)
    requires a + c == b + c
    ensures a == b
  {
    assert |a| == |b|;
    assert forall i :: 0 <= i < |a| ==> (a + c)[i] == a[i] && (b + c)[i] == b[i];
  }

  lemma {:induction false} FreshBehind(b: seq<Item>, o: seq<Item>, cursor: nat, start: nat)
    requires AllAfter(o, cursor) && start <= cursor
    ensures Fresh(b + o, cursor) == Fresh(b, cursor) + Fresh(o, start)
    ensures Fresh(b + o, start) == Fresh(b, start) + Fresh(o, start)
  {
    FreshAppend(b, o, cursor);
    FreshAppend(b, o, start);
    SameFresh(o, cursor, start, |o|);
  }

  /** Completeness does not depend on what stands behind the cursor. */
  lemma {:induction false} CompleteBehind(b: seq<Item>, o: seq<Item>, start: nat, cursor: nat, counted: seq<Item>)
    requires AllAfter(o, cursor) && start <= cursor
    ensures Complete(b + o, start, cursor, counted) <==> Complete(b, start, cursor, counted)
  {
    FreshBehind(b, o, cursor, start);
    Assoc(counted, Fresh(b, cursor), Fresh(o, start));
    if Complete(b + o, start, cursor, counted) {
      Cancel(counted + Fresh(b, cursor), Fresh(b, start), Fresh(o, start));
    }
  }

  lemma {:induction false} StandsBefore(b: seq<Item>, o: seq<Item>, n: seq<Item>, cursor: nat)
    requires Stands(b + o, cursor) && AllAfter(o, cursor)
    ensures Stands(b + n, cursor)
  {
    if cursor != 0 {
      var i :| 0 <= i < |b + o| && (b + o)[i].line == cursor;
      assert i < |b|;
      assert (b + n)[i].line == cursor;
    }
  }

  /** The log grows by items behind the cursor, or its last items behind the cursor are replaced. */
  lemma {:induction false} GrowthKeeps(b: seq<Item>, o: seq<Item>, n: seq<Item>, start: nat, cursor: nat, counted: seq<Item>)
    requires AllAfter(o, cursor) && AllAfter(n, cursor) && start <= cursor
    requires Complete(b + o, start, cursor, counted) && Stands(b + o, cursor)
    ensures Complete(b + n, start, cursor, counted) && Stands(b + n, cursor)
  {
    CompleteBehind(b, o, start, cursor, counted);
    CompleteBehind(b, n, start, cursor, counted);
    StandsBefore(b, o, n, cursor);
  }

  lemma {:induction false} LinesGrow(j: Json, log: string, text: string)
    requires Lawful(j)
    ensures Lines(log + text) >= Lines(log)
  {
    var b, s := Base(log), OpenLine(log);
    Assoc(b, s, text);
    LinesAppend(b, s);
    LinesAppend(b, s + text);
    if s != [] {
      ItemsOfLine(j, s, 0);
    }
  }

  lemma {:induction false} ForeignKeepsInv(c: Config, s: State, start: nat, text: string)
    requires Lawful(c.json) && Inv(c, s, start) && Careful(s.cursor, s.log, text)
    ensures Inv(c, s.(log := s.log + text), start)
  {
    var b, o, n := AppendSplits(c.json, s.log, text, s.cursor);
    GrowthKeeps(b, o, n, start, s.cursor, s.counted);
    LinesGrow(c.json, s.log, text);
  }

  lemma {:induction false} OwnKeepsInv(c: Config, s: State, start: nat, ms: seq<Message>)
    requires Lawful(c.json) && Inv(c, s, start) && AllMine(ms)
    ensures Inv(c, s.(log := Appended(c.json, s.log, ms)), start)
  {
    var n := OwnAppend(c.json, s.log, ms);
    var items := ItemsOf(c, s);
    assert items + [] == items;
    GrowthKeeps(items, [], n, start, s.cursor, s.counted);
    OwnLines(c.json, s.log, ms);
  }

  lemma {:induction false} OwnLines(j: Json, log: string, ms: seq<Message>)
    requires Lawful(j)
    ensures Lines(Appended(j, log, ms)) >= Lines(log)
  {
    var more := (if Torn(log) then "\n" else "") + Tail(j, ms);
    assert Appended(j, log, ms) == log + more;
    LinesGrow(j, log, more);
  }

  lemma {:induction false} CursorIsLast(items: seq<Item>, cursor: nat)
    requires Stands(items, cursor)
    requires forall i, k :: 0 <= i < k < |items| ==> items[i].line <= items[k].line
    ensures cursor <= NewCursor(items, cursor) && Stands(items, NewCursor(items, cursor))
    ensures Fresh(items, NewCursor(items, cursor)) == []
  {
    NothingFresh(items, NewCursor(items, cursor), |items|);
  }

  lemma {:induction false} LookKeepsInv(c: Config, s: State, start: nat)
    requires Inv(c, s, start)
    ensures Inv(c, Do(c, s, Look), start)
    ensures Fresh(ItemsOf(c, s), Do(c, s, Look).cursor) == [] && Do(c, s, Look).counted == Fresh(ItemsOf(c, s), start)
  {
    var items := ItemsOf(c, s);
    ItemsInOrder(c.json, s.log, 0);
    ItemsWithin(c.json, s.log, 0);
    CursorIsLast(items, s.cursor);
    assert Fresh(items, start) + [] == Fresh(items, start);
  }

  lemma {:induction false} RunKeepsInv(c: Config, s: State, start: nat, acts: seq<Action>)
    requires Lawful(c.json) && Inv(c, s, start) && CanRun(c, s, acts) && CarefulRun(c, s, acts)
    ensures Inv(c, Run(c, s, acts), start)
    decreases |acts|
  {
    if acts != [] {
      StepKeepsInv(c, s, start, acts[0]);
      RunKeepsInv(c, Do(c, s, acts[0]), start, acts[1..]);
    }
  }

  lemma {:induction false} StepKeepsInv(c: Config, s: State, start: nat, a: Action)
    requires Lawful(c.json) && Inv(c, s, start) && Can(c, s, a)
    requires a.Foreign? ==> Careful(s.cursor, s.log, a.text)
    ensures Inv(c, Do(c, s, a), start)
  {
    match a {
      case Foreign(text) => ForeignKeepsInv(c, s, start, text);
      case Look => LookKeepsInv(c, s, start);
      case Alert(ms) => OwnKeepsInv(c, s, start, ms);
      case Digest(ms) => OwnKeepsInv(c, s, start, ms);
    }
  }

  /** Over any careful run, what was counted as new, followed by what the next look will count, is exactly the messages
      of others after the starting cursor: each in one cycle only, none missed, in the order of the log. */
  lemma {:induction false} EveryMessageOnce(c: Config, s: State, acts: seq<Action>)
    requires Lawful(c.json) && s.counted == [] && Stands(ItemsOf(c, s), s.cursor)
    requires CanRun(c, s, acts) && CarefulRun(c, s, acts)
    ensures var e := Run(c, s, acts); Complete(ItemsOf(c, e), s.cursor, e.cursor, e.counted)
    ensures var e := Run(c, s, acts); Do(c, e, Look).counted == Fresh(ItemsOf(c, e), s.cursor)
  {
    ItemsWithin(c.json, s.log, 0);
    RunKeepsInv(c, s, s.cursor, acts);
    LookKeepsInv(c, Run(c, s, acts), s.cursor);
  }

  // ----- a text glued to a line the cursor has passed -------------------------------------------------------

  /** The items of the line a text is glued to, and those of the lines behind it. */
  lemma {:induction false} GluedSplits(j: Json, log: string, text: string) returns (o: seq<Item>, n1: seq<Item>, n2: seq<Item>)
    requires Lawful(j) && Torn(log) && text != []
    ensures Items(j, log, 0) == Items(j, Base(log), 0) + o && NoneAfter(o, Lines(log))
    ensures Items(j, log + text, 0) == Items(j, Base(log), 0) + (n1 + n2)
    ensures NoneAfter(n1, Lines(log)) && AllAfter(n2, Lines(log))
    ensures n1 == OnLine(Lines(log), DecodeLine(j, (OpenLine(log) + text)[..LineEnd(OpenLine(log) + text)]))
  {
    var b, s := Base(log), OpenLine(log);
    LogItems(j, log);
    o := LastItems(j, log);
    Assoc(b, s, text);
    n1, n2 := LineAndRest(j, s + text, Lines(b), Lines(log));
    ItemsAppend(j, b, s + text, 0, Lines(b));
  }

  lemma {:induction false} LineAndRest(j: Json, t: string, n: nat, l: nat) returns (n1: seq<Item>, n2: seq<Item>)
    requires t != [] && l == n + 1
    ensures Items(j, t, n) == n1 + n2 && n1 == OnLine(l, DecodeLine(j, t[..LineEnd(t)])) && AllAfter(n2, l)
  {
    n1 := OnLine(l, DecodeLine(j, t[..LineEnd(t)]));
    n2 := Items(j, t[LineEnd(t)..], l);
    ItemsWithin(j, t[LineEnd(t)..], l);
  }

  lemma {:induction false} BaseBefore(j: Json, log: string)
    requires Lawful(j)
    ensures NoneAfter(Items(j, Base(log), 0), Lines(log))
  {
    ItemsWithin(j, Base(log), 0);
    LogItems(j, log);
  }

  lemma {:induction false} SeenPart(b: seq<Item>, o: seq<Item>, start: nat, cursor: nat, counted: seq<Item>)
    requires NoneAfter(b, cursor) && NoneAfter(o, cursor)
    ensures Complete(b + o, start, cursor, counted) <==> counted == Fresh(b, start) + Fresh(o, start)
  {
    FreshAppend(b, o, start);
    NothingFresh(b + o, cursor, |b + o|);
    assert counted + [] == counted;
  }

  /** A text glued to the line the cursor stands on keeps the count complete if and only if it does not change what
      others wrote on that line: a new message there is never counted. */
  lemma {:induction false} GluedCount(j: Json, log: string, text: string, start: nat, counted: seq<Item>)
      returns (o: seq<Item>, n1: seq<Item>)
    requires Lawful(j) && Torn(log) && text != [] && start <= Lines(log)
    requires Complete(Items(j, log, 0), start, Lines(log), counted)
    ensures o == LastItems(j, log)
    ensures n1 == OnLine(Lines(log), DecodeLine(j, (OpenLine(log) + text)[..LineEnd(OpenLine(log) + text)]))
    ensures Complete(Items(j, log + text, 0), start, Lines(log), counted) <==> Fresh(n1, start) == Fresh(o, start)
  {
    var c, b := Lines(log), Items(j, Base(log), 0);
    var n2;
    o, n1, n2 := GluedSplits(j, log, text);
    BaseBefore(j, log);
    SeenPart(b, o, start, c, counted);
    SeenPart(b, n1, start, c, counted);
    Assoc(b, n1, n2);
    CompleteBehind(b + n1, n2, start, c, counted);
    if Fresh(b, start) + Fresh(n1, start) == Fresh(b, start) + Fresh(o, start) {
      CancelFront(Fresh(b, start), Fresh(n1, start), Fresh(o, start));
    }
    LogItems(j, log);
    CancelFront(b, o, LastItems(j, log));
  }

  lemma {:induction false} CancelFront<T>(a: seq<T>, b: seq<T>, c: seq<T>)
    requires a + b == a + c
    ensures b == c
  {
    assert (a + b)[|a|..] == b && (a + c)[|a|..] == c;
  }

  lemma {:induction false} GluedText(j: Json, s: string, m: Message, text: string)
    requires Lawful(j) && Gluing(j) && '\n' !in s && Whole(j, s) && text == j.dumps(m) + "\n"
    ensures DecodeLine(j, (s + text)[..LineEnd(s + text)]) == DecodeLine(j, s) + [m]
  {
    assert DumpsIsLine(j.dumps(m));
    LineEndUnterminated(s + j.dumps(m));
    assert s + text == s + j.dumps(m) + "\n";
    assert (s + text)[..LineEnd(s + text)] == s + text;
    GluedLine(j, s, m);
  }

  lemma {:induction false} OneMoreFresh(n: nat, ms: seq<Message>, m: Message, start: nat)
    requires n > start && Theirs(m)
    ensures Fresh(OnLine(n, ms + [m]), start) == Fresh(OnLine(n, ms), start) + [Item(n, m)]
  {
    assert OnLine(n, ms + [m]) == OnLine(n, ms) + [Item(n, m)];
    FreshPrefix(OnLine(n, ms), [Item(n, m)], start, |ms|);
  }

  lemma {:induction false} GluedIsNotCounted(j: Json, log: string, m: Message, text: string, start: nat, counted: seq<Item>)
    requires Lawful(j) && Gluing(j) && Torn(log) && Whole(j, OpenLine(log)) && Theirs(m) && start < Lines(log)
    requires Complete(Items(j, log, 0), start, Lines(log), counted) && text == j.dumps(m) + "\n"
    ensures !Complete(Items(j, log + text, 0), start, Lines(log), counted)
  {
    GluedText(j, OpenLine(log), m, text);
    OneMoreFresh(Lines(log), DecodeLine(j, OpenLine(log)), m, start);
    var o, n1 := GluedCount(j, log, text, start, counted);
  }

  /** A printed message of somebody else, glued to a whole line the cursor stands on, can be read but never counts. */
  lemma {:induction false} GluedMessageIsMissed(j: Json, log: string, m: Message, start: nat, counted: seq<Item>)
    requires Lawful(j) && Gluing(j) && Torn(log) && Whole(j, OpenLine(log)) && Theirs(m) && start < Lines(log)
    requires Complete(Items(j, log, 0), start, Lines(log), counted)
    ensures DecodeLog(j, log + (j.dumps(m) + "\n")) == DecodeLog(j, log) + [m]
    ensures !Complete(Items(j, log + (j.dumps(m) + "\n"), 0), start, Lines(log), counted)
  {
    GluedIsNotCounted(j, log, m, j.dumps(m) + "\n", start, counted);
    GluedIsRead(j, log, m);
  }

  lemma {:induction false} GluedIsRead(j: Json, log: string, m: Message)
    requires Lawful(j) && Gluing(j) && Whole(j, OpenLine(log))
    ensures DecodeLog(j, log + (j.dumps(m) + "\n")) == DecodeLog(j, log) + [m]
  {
    PayloadOfOne(j, m);
    assert log + "" == log;
    WriteExtendsLog(j, log, false, [m]);
  }

  lemma {:induction false} PayloadOfOne(j: Json, m: Message)
    ensures Payload(j, [m]) == j.dumps(m) + "\n"
  {
    assert [m][1..] == [];
    assert Payload(j, []) == [];
  }

  // ----- digests stop ---------------------------------------------------------------------------------------

  /** Digests still due: of the cycle in progress, and for messages no look has seen. */
  function Due(c: Config, s: State): nat {
    (if s.pending then 1 else 0) + (if Substance(c, Fresh(ItemsOf(c, s), s.cursor)) then 1 else 0)
  }

  lemma {:induction false} OwnPostsAreNoNews(c: Config, log: string, ms: seq<Message>, cursor: nat)
    requires Lawful(c.json) && AllMine(ms)
    ensures Fresh(Items(c.json, Appended(c.json, log, ms), 0), cursor) == Fresh(Items(c.json, log, 0), cursor)
  {
    var n := OwnAppend(c.json, log, ms);
    FreshAppend(Items(c.json, log, 0), n, cursor);
    OwnNotFresh(n, cursor, |n|);
  }

  lemma {:induction false} LookSeesAll(c: Config, s: State)
    ensures Fresh(ItemsOf(c, s), Do(c, s, Look).cursor) == []
  {
    var items := ItemsOf(c, s);
    ItemsInOrder(c.json, s.log, 0);
    NothingFresh(items, NewCursor(items, s.cursor), |items|);
  }

  lemma {:induction false} StepKeepsDue(c: Config, s: State, a: Action)
    requires Lawful(c.json) && Can(c, s, a) && !a.Foreign?
    ensures Do(c, s, a).digests + Due(c, Do(c, s, a)) <= s.digests + Due(c, s)
  {
    match a {
      case Look => LookSeesAll(c, s);
      case Alert(ms) => OwnPostsAreNoNews(c, s.log, ms, s.cursor);
      case Digest(ms) => OwnPostsAreNoNews(c, s.log, ms, s.cursor);
    }
  }

  predicate NoForeign(acts: seq<Action>) {
    forall i :: 0 <= i < |acts| ==> !acts[i].Foreign?
  }

  /** Once others stop writing, the watcher posts at most the digests then due: one for the cycle in progress if it has
      not posted yet, and one for messages no look has seen; its own posts never add any. */
  lemma {:induction false} DigestsStop(c: Config, s: State, acts: seq<Action>)
    requires Lawful(c.json) && CanRun(c, s, acts) && NoForeign(acts)
    ensures Run(c, s, acts).digests + Due(c, Run(c, s, acts)) <= s.digests + Due(c, s)
    ensures !s.pending ==> Run(c, s, acts).digests <= s.digests + 1
    decreases |acts|
  {
    if acts != [] {
      StepKeepsDue(c, s, acts[0]);
      DigestsStop(c, Do(c, s, acts[0]), acts[1..]);
    }
  }

  // ----- the cycle as the code runs it ----------------------------------------------------------------------

  method HasSubstance(c: Config, news: seq<Item>) returns (r: bool)
    ensures r == Substance(c, news)
  {
    for i := 0 to |news|
      invariant forall k :: 0 <= k < i ==> Heartbeat(c, news[k].msg)
    {
      if !Heartbeat(c, news[i].msg) {
        return true;
      }
    }
    r := false;
  }

  method ReadAll(j: Json, t: string) returns (items: seq<Item>)
    ensures items == Items(j, t, 0)
  {
    items := [];
    var rest, n := t, 0;
    while rest != []
      invariant Items(j, t, 0) == items + Items(j, rest, n)
      decreases |rest|
    {
      var k := LineEnd(rest);
      var line := OnLine(n + 1, DecodeLine(j, rest[..k]));
      Assoc(items, line, Items(j, rest[k..], n + 1));
      items, rest, n := items + line, rest[k..], n + 1;
    }
    assert items + [] == items;
  }

  class Watcher {
    var cursor: nat

    /** Reading, filtering and moving the cursor; `digest` says whether this cycle posts one. */
    method Cycle(c: Config, log: string) returns (news: seq<Item>, digest: bool)
      modifies this
      ensures news == Fresh(Items(c.json, log, 0), old(cursor)) && digest == Substance(c, news)
      ensures cursor == NewCursor(Items(c.json, log, 0), old(cursor))
    {
      var items := ReadAll(c.json, log);
      news := [];
      for i := 0 to |items|
        invariant news == FreshUpTo(items, cursor, i)
        invariant cursor == old(cursor)
      {
        if items[i].line > cursor && items[i].msg.sender != ME {
          news := news + [items[i]];
        }
      }
      if items != [] {
        cursor := items[|items| - 1].line;
      }
      digest := HasSubstance(c, news);
    }
  }
}

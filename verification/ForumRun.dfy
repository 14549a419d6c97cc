/** Whole runs of the forum: posters that take the lock, read the log twice, look at its last byte and
    write (tools/forum_post.py, `post` and `_post_locked`, under tools/forum_lock.py), together with
    writers that append to the same log without any lock, at any moment.

    Named assumption.  The text of one write arrives in the file in one piece.
 */
module ForumRun {
  import opened Basics
  import opened ForumPost
  import L = ForumLock

  /** What a poster has read so far: the log at `max_id`, the log at `forum_ids`, and at the newline guard whether the
      log was torn. */
  datatype Reads =
    | Nothing
    | MaxRead(t1: string)
    | IdsRead(t1: string, t2: string)
    | Guarded(t1: string, t2: string, torn: bool)

  datatype Config = Config(lock: L.Config, json: Json, who: L.Pid -> string)

  /** A message written by a poster, with the author and number its id was printed from. */
  datatype Entry = Entry(who: string, number: nat, message: Message)

  /** `written` is the history of what posters appended, in order. */
  datatype State = State(lock: L.State, log: string, seen: map<L.Pid, Reads>, written: seq<Entry>)

  datatype Action =
    | LockStep(a: L.Action)
    | ReadMax(p: L.Pid)
    | ReadIds(p: L.Pid)
    | Guard(p: L.Pid)
    | Write(p: L.Pid, ts: seq<string>, ds: seq<Draft>)
    | Foreign(text: string)

  function ReadsOf(s: State, p: L.Pid): Reads {
    if p in s.seen then s.seen[p] else Nothing
  }

  predicate Holding(s: State, p: L.Pid) {
    L.Live(s.lock, p) && s.lock.procs[p].phase.Held?
  }

  predicate Can(c: Config, s: State, a: Action) {
    match a
    case LockStep(b) => L.Can(c.lock, s.lock, b)
    case ReadMax(p) => Holding(s, p) && ReadsOf(s, p).Nothing?
    case ReadIds(p) => Holding(s, p) && ReadsOf(s, p).MaxRead?
    case Guard(p) => Holding(s, p) && ReadsOf(s, p).IdsRead?
    case Write(p, ts, ds) =>
      && Holding(s, p) && ReadsOf(s, p).Guarded? && |ts| == |ds|
      && AllClean(c.json, NewMessages(c, s, p, ts, ds))
    case Foreign(_) => true
  }

  /** The messages `p` would write now, numbered from what it has read. */
  function NewMessages(c: Config, s: State, p: L.Pid, ts: seq<string>, ds: seq<Draft>): (ms: seq<Message>)
    requires ReadsOf(s, p).Guarded? && |ts| == |ds|
    ensures |ms| == |ds|
  {
    BatchFor(c.json, c.who(p), ReadsOf(s, p).t1, ReadsOf(s, p).t2, ts, ds)
  }

  function NewNumbers(c: Config, s: State, p: L.Pid, k: nat): (ns: seq<nat>)
    requires ReadsOf(s, p).Guarded?
    ensures |ns| == k
  {
    IdsInjective(c.who(p));
    Numbers(Ids(c.who(p)), MaxNumber(c.json, c.who(p), DecodeLog(c.json, ReadsOf(s, p).t1)),
            IdsOf(DecodeLog(c.json, ReadsOf(s, p).t2)), k)
  }

  function NewEntries(c: Config, s: State, p: L.Pid, ts: seq<string>, ds: seq<Draft>): (es: seq<Entry>)
    requires ReadsOf(s, p).Guarded? && |ts| == |ds|
    ensures |es| == |ds|
  {
    var ms, ns := NewMessages(c, s, p, ts, ds), NewNumbers(c, s, p, |ds|);
    seq(|ds|, i requires 0 <= i < |ds| => Entry(c.who(p), ns[i], ms[i]))
  }

  function Do(c: Config, s: State, a: Action): State
    requires Can(c, s, a)
  {
    match a
    case LockStep(b) =>
      s.(lock := L.Do(c.lock, s.lock, b),
         seen := if b.Release? || b.Create? || b.Crash? then s.seen[b.p := Nothing] else s.seen)
    case ReadMax(p) => s.(seen := s.seen[p := MaxRead(s.log)])
    case ReadIds(p) => s.(seen := s.seen[p := IdsRead(ReadsOf(s, p).t1, s.log)])
    case Guard(p) => s.(seen := s.seen[p := Guarded(ReadsOf(s, p).t1, ReadsOf(s, p).t2, Torn(s.log))])
    case Write(p, ts, ds) =>
      s.(log := Written(c.json, s.log, ReadsOf(s, p).torn, NewMessages(c, s, p, ts, ds)),
         seen := s.seen[p := Nothing],
         written := s.written + NewEntries(c, s, p, ts, ds))
    case Foreign(text) => s.(log := s.log + text)
  }

  predicate CanRun(c: Config, s: State, acts: seq<Action>)
    decreases |acts|
  {
    acts == [] || (Can(c, s, acts[0]) && CanRun(c, Do(c, s, acts[0]), acts[1..]))
  }

  function Run(c: Config, s: State, acts: seq<Action>): State
    requires CanRun(c, s, acts)
    decreases |acts|
  {
    if acts == [] then s else Run(c, Do(c, s, acts[0]), acts[1..])
  }

  /** Every write of the run is made by a process whose own lock file is still in place. */
  predicate Locked(c: Config, s: State, acts: seq<Action>)
    requires CanRun(c, s, acts)
    decreases |acts|
  {
    acts == [] ||
    ((acts[0].Write? ==> L.OwnLock(s.lock, acts[0].p)) && Locked(c, Do(c, s, acts[0]), acts[1..]))
  }

  /** The guard of the writer, or the state of the last line, keeps the batch readable. */
  predicate SafeWrite(c: Config, s: State, a: Action)
    requires Can(c, s, a) && a.Write?
  {
    Safe(c.json, s.log, ReadsOf(s, a.p).torn)
  }

  predicate AllSafe(c: Config, s: State, acts: seq<Action>)
    requires CanRun(c, s, acts)
    decreases |acts|
  {
    acts == [] || ((acts[0].Write? ==> SafeWrite(c, s, acts[0])) && AllSafe(c, Do(c, s, acts[0]), acts[1..]))
  }

  predicate Init(s: State) {
    L.Init(s.lock) && s.seen == map[] && s.written == []
  }

  // ----- what every step keeps --------------------------------------------------------------

  /** Ids are the printed author and number, and the numbers of one author rise strictly. */
  predicate Numbered(es: seq<Entry>) {
    && (forall i :: 0 <= i < |es| ==> es[i].message.id == Some(FormatId(es[i].who, es[i].number)))
    && (forall i, k :: 0 <= i < k < |es| && es[i].who == es[k].who ==> es[i].number < es[k].number)
  }

  /** `t` has a first part that ends a line and in which all of `es` can be read. */
  predicate Contains(j: Json, t: string, cut: nat, es: seq<Entry>) {
    && cut <= |t| && (cut == 0 || t[cut - 1] == '\n')
    && forall i :: 0 <= i < |es| ==> es[i].message in DecodeLog(j, t[..cut])
  }

  predicate Inv(c: Config, s: State, cut: nat) {
    && Numbered(s.written)
    && Contains(c.json, s.log, cut, s.written)
    && (forall p :: p in s.seen && !s.seen[p].Nothing? && L.OwnLock(s.lock, p) ==>
          Contains(c.json, s.seen[p].t1, cut, s.written))
  }

  lemma {:induction false} ContainsExtends(j: Json, t: string, cut: nat, es: seq<Entry>, more: string)
    requires Contains(j, t, cut, es)
    ensures Contains(j, t + more, cut, es)
  {
    assert (t + more)[..cut] == t[..cut];
  }

  /** Whatever follows the cut, the contained messages are read. */
  lemma {:induction false} ContainedAreRead(j: Json, t: string, cut: nat, es: seq<Entry>, i: nat)
    requires Contains(j, t, cut, es) && i < |es|
    ensures es[i].message in DecodeLog(j, t)
  {
    assert t == t[..cut] + t[cut..];
    DecodeAppend(j, t[..cut], t[cut..]);
  }

  lemma {:induction false} WrittenEndsLine(j: Json, log: string, torn: bool, ms: seq<Message>)
    ensures Written(j, log, torn, ms) != [] && !Torn(Written(j, log, torn, ms))
  {
    if ms != [] {
      PayloadEndsLine(j, ms);
    }
  }

  lemma {:induction false} PayloadEndsLine(j: Json, ms: seq<Message>)
    requires ms != []
    ensures Payload(j, ms) != [] && Payload(j, ms)[|Payload(j, ms)| - 1] == '\n'
  {
    if |ms| > 1 {
      PayloadEndsLine(j, ms[1..]);
    }
  }

  /** Only `p`'s own successful create can make a lock file `p`'s own. */
  lemma {:induction false} OwnLockComesFromCreate(c: L.Config, s: L.State, b: L.Action, p: L.Pid)
    requires L.Can(c, s, b) && L.OwnLock(L.Do(c, s, b), p) && !(b.Create? && b.p == p)
    ensures L.OwnLock(s, p)
  {
  }

  lemma {:induction false} NewEntryAt(c: Config, s: State, p: L.Pid, ts: seq<string>, ds: seq<Draft>, i: nat)
    requires ReadsOf(s, p).Guarded? && i < |ts| == |ds|
    ensures var e := NewEntries(c, s, p, ts, ds)[i];
      && e.who == c.who(p) && e.number == NewNumbers(c, s, p, |ds|)[i]
      && e.message == NewMessages(c, s, p, ts, ds)[i]
      && e.message.id == Some(FormatId(e.who, e.number))
  {
    IdsInjective(c.who(p));
    BatchAt(c.who(p), Ids(c.who(p)), MaxNumber(c.json, c.who(p), DecodeLog(c.json, ReadsOf(s, p).t1)),
            IdsOf(DecodeLog(c.json, ReadsOf(s, p).t2)), ts, ds, i);
  }

  /** A new number is above every earlier number of the same author. */
  lemma {:induction false} NewNumberIsAbove(c: Config, s: State, cut: nat, p: L.Pid, k: nat, i: nat, e: nat)
    requires Lawful(c.json) && Inv(c, s, cut) && L.OwnLock(s.lock, p)
    requires ReadsOf(s, p).Guarded? && i < k && e < |s.written| && s.written[e].who == c.who(p)
    ensures s.written[e].number < NewNumbers(c, s, p, k)[i]
  {
    var t1 := ReadsOf(s, p).t1;
    var past := s.written[e];
    ContainedAreRead(c.json, t1, cut, s.written, e);
    OwnNumberOfFormat(c.json, past.who, past.number);
    MaxNumberBounds(c.json, c.who(p), DecodeLog(c.json, t1), past.message);
    IdsInjective(c.who(p));
    NumbersAreFresh(Ids(c.who(p)), MaxNumber(c.json, c.who(p), DecodeLog(c.json, t1)),
                    IdsOf(DecodeLog(c.json, ReadsOf(s, p).t2)), k);
  }

  lemma {:induction false} WriteKeepsOrder(c: Config, s: State, cut: nat, p: L.Pid, ts: seq<string>, ds: seq<Draft>, i: nat, k: nat)
    requires Lawful(c.json) && Inv(c, s, cut) && L.OwnLock(s.lock, p)
    requires ReadsOf(s, p).Guarded? && |ts| == |ds|
    requires var es := s.written + NewEntries(c, s, p, ts, ds); i < k < |es| && es[i].who == es[k].who
    ensures var es := s.written + NewEntries(c, s, p, ts, ds); es[i].number < es[k].number
  {
    var n := |s.written|;
    if k >= n {
      NewEntryAt(c, s, p, ts, ds, k - n);
      if i < n {
        NewNumberIsAbove(c, s, cut, p, |ds|, k - n, i);
      } else {
        NewEntryAt(c, s, p, ts, ds, i - n);
        IdsInjective(c.who(p));
        NumbersAreFresh(Ids(c.who(p)), MaxNumber(c.json, c.who(p), DecodeLog(c.json, ReadsOf(s, p).t1)),
                        IdsOf(DecodeLog(c.json, ReadsOf(s, p).t2)), |ds|);
      }
    }
  }

  lemma {:induction false} WriteKeepsNumbered(c: Config, s: State, cut: nat, p: L.Pid, ts: seq<string>, ds: seq<Draft>)
    requires Lawful(c.json) && Inv(c, s, cut) && L.OwnLock(s.lock, p)
    requires ReadsOf(s, p).Guarded? && |ts| == |ds|
    ensures Numbered(s.written + NewEntries(c, s, p, ts, ds))
  {
    var n := |s.written|;
    var es := s.written + NewEntries(c, s, p, ts, ds);
    forall i | 0 <= i < |es| ensures es[i].message.id == Some(FormatId(es[i].who, es[i].number)) {
      if i >= n {
        NewEntryAt(c, s, p, ts, ds, i - n);
      }
    }
    forall i, k | 0 <= i < k < |es| && es[i].who == es[k].who ensures es[i].number < es[k].number {
      WriteKeepsOrder(c, s, cut, p, ts, ds, i, k);
    }
  }

  lemma {:induction false} BothAreRead(j: Json, log: string, log': string, ms: seq<Message>, before: seq<Entry>, es: seq<Entry>)
    requires DecodeLog(j, log') == DecodeLog(j, log) + ms && |es| == |ms| && !Torn(log')
    requires forall i :: 0 <= i < |before| ==> before[i].message in DecodeLog(j, log)
    requires forall i :: 0 <= i < |es| ==> es[i].message == ms[i]
    ensures Contains(j, log', |log'|, before + es)
  {
    assert log'[..|log'|] == log';
    forall i | 0 <= i < |before| + |es| ensures (before + es)[i].message in DecodeLog(j, log') {
      if i >= |before| {
        assert (before + es)[i] == es[i - |before|];
      }
    }
  }

  lemma {:induction false} WriteKeepsContents(c: Config, s: State, cut: nat, p: L.Pid, ts: seq<string>, ds: seq<Draft>)
    requires Lawful(c.json) && Gluing(c.json) && Inv(c, s, cut)
    requires ReadsOf(s, p).Guarded? && |ts| == |ds| && Safe(c.json, s.log, ReadsOf(s, p).torn)
    ensures var log := Written(c.json, s.log, ReadsOf(s, p).torn, NewMessages(c, s, p, ts, ds));
      Contains(c.json, log, |log|, s.written + NewEntries(c, s, p, ts, ds))
  {
    var ms, es := NewMessages(c, s, p, ts, ds), NewEntries(c, s, p, ts, ds);
    var log := Written(c.json, s.log, ReadsOf(s, p).torn, ms);
    WriteExtendsLog(c.json, s.log, ReadsOf(s, p).torn, ms);
    WrittenEndsLine(c.json, s.log, ReadsOf(s, p).torn, ms);
    forall i | 0 <= i < |s.written| ensures s.written[i].message in DecodeLog(c.json, s.log) {
      ContainedAreRead(c.json, s.log, cut, s.written, i);
    }
    forall i | 0 <= i < |es| ensures es[i].message == ms[i] {
      NewEntryAt(c, s, p, ts, ds, i);
    }
    BothAreRead(c.json, s.log, log, ms, s.written, es);
  }

  function CutAfter(c: Config, s: State, a: Action, cut: nat): nat
    requires Can(c, s, a)
  {
    if a.Write? then |Do(c, s, a).log| else cut
  }

  lemma {:induction false} StepKeepsInv(c: Config, s: State, a: Action, cut: nat)
    requires Lawful(c.json) && Gluing(c.json) && Inv(c, s, cut) && Can(c, s, a)
    requires a.Write? ==> L.OwnLock(s.lock, a.p) && SafeWrite(c, s, a)
    ensures Inv(c, Do(c, s, a), CutAfter(c, s, a, cut))
  {
    var s' := Do(c, s, a);
    match a {
      case LockStep(b) =>
        forall p | p in s'.seen && !s'.seen[p].Nothing? && L.OwnLock(s'.lock, p)
          ensures Contains(c.json, s'.seen[p].t1, cut, s.written)
        {
          OwnLockComesFromCreate(c.lock, s.lock, b, p);
        }
      case ReadMax(p) =>
      case ReadIds(p) =>
      case Guard(p) =>
      case Write(p, ts, ds) =>
        WriteKeepsNumbered(c, s, cut, p, ts, ds);
        WriteKeepsContents(c, s, cut, p, ts, ds);
      case Foreign(text) =>
        ContainsExtends(c.json, s.log, cut, s.written, text);
    }
  }

  lemma {:induction false} RunKeepsInv(c: Config, s: State, acts: seq<Action>, cut: nat) returns (cut': nat)
    requires Lawful(c.json) && Gluing(c.json) && Inv(c, s, cut)
    requires CanRun(c, s, acts) && Locked(c, s, acts) && AllSafe(c, s, acts)
    ensures Inv(c, Run(c, s, acts), cut')
    decreases |acts|
  {
    if acts == [] {
      cut' := cut;
    } else {
      StepKeepsInv(c, s, acts[0], cut);
      cut' := RunKeepsInv(c, Do(c, s, acts[0]), acts[1..], CutAfter(c, s, acts[0], cut));
    }
  }

  /** In every run in which posters write under their own lock and every write is safe, whatever lockless writers add to
      the file in between: all ids written by posters are pairwise distinct, rise strictly per author, and every
      message written can still be read from the log. */
  lemma {:induction false} PostedIdsAreDistinct(c: Config, s0: State, acts: seq<Action>, i: nat, k: nat)
    requires Lawful(c.json) && Gluing(c.json) && Init(s0)
    requires CanRun(c, s0, acts) && Locked(c, s0, acts) && AllSafe(c, s0, acts)
    requires i < k < |Run(c, s0, acts).written|
    ensures var s := Run(c, s0, acts); var a, b := s.written[i], s.written[k];
      && a.message.id != b.message.id
      && (a.who == b.who ==> a.number < b.number)
      && a.message in DecodeLog(c.json, s.log) && b.message in DecodeLog(c.json, s.log)
  {
    var s := Run(c, s0, acts);
    assert s0.log[..0] == [];
    var cut := RunKeepsInv(c, s0, acts, 0);
    ContainedAreRead(c.json, s.log, cut, s.written, i);
    ContainedAreRead(c.json, s.log, cut, s.written, k);
    FormatIdInjective(s.written[i].who, s.written[i].number, s.written[k].who, s.written[k].number);
  }

  // ----- when every write is safe -----------------------------------------------------------

  /** The write extends the decoded log by exactly its messages. */
  predicate Extends(c: Config, s: State, a: Action)
    requires Can(c, s, a) && a.Write?
  {
    DecodeLog(c.json, Do(c, s, a).log) == DecodeLog(c.json, s.log) + NewMessages(c, s, a.p, a.ts, a.ds)
  }

  predicate AllExtend(c: Config, s: State, acts: seq<Action>)
    requires CanRun(c, s, acts)
    decreases |acts|
  {
    acts == [] ||
    ((acts[0].Write? ==> Extends(c, s, acts[0])) && AllExtend(c, Do(c, s, acts[0]), acts[1..]))
  }

  predicate NoEmptyBatch(acts: seq<Action>) {
    forall i :: 0 <= i < |acts| && acts[i].Write? ==> acts[i].ds != []
  }

  /** Safety is exact: in any run, every batch is read back whole if and only if every write is safe. */
  lemma {:induction false} SafeRunsExtend(c: Config, s: State, acts: seq<Action>)
    requires Lawful(c.json) && Gluing(c.json) && CanRun(c, s, acts) && NoEmptyBatch(acts)
    ensures AllExtend(c, s, acts) <==> AllSafe(c, s, acts)
    decreases |acts|
  {
    if acts != [] {
      var a := acts[0];
      if a.Write? {
        WriteExtendsLog(c.json, s.log, ReadsOf(s, a.p).torn, NewMessages(c, s, a.p, a.ts, a.ds));
      }
      SafeRunsExtend(c, Do(c, s, a), acts[1..]);
    }
  }

  /** Some live poster has found the last line finished and has not written yet. */
  predicate Exposed(s: State) {
    exists p :: p in s.seen && s.seen[p].Guarded? && !s.seen[p].torn
  }

  /** Meanwhile lockless writers leave the last line whole: a newline, or complete JSON values, at its end. */
  predicate CarefulWriters(c: Config, s: State, acts: seq<Action>)
    requires CanRun(c, s, acts)
    decreases |acts|
  {
    acts == [] ||
    (&& (acts[0].Foreign? && Exposed(s) ==>
           Whole(c.json, OpenLine(Do(c, s, acts[0]).log)))
     && CarefulWriters(c, Do(c, s, acts[0]), acts[1..]))
  }

  predicate GuardsIn(j: Json, log: string, seen: map<L.Pid, Reads>) {
    forall p :: p in seen && seen[p].Guarded? ==> Safe(j, log, seen[p].torn)
  }

  predicate GuardsHold(c: Config, s: State) {
    GuardsIn(c.json, s.log, s.seen)
  }

  lemma {:induction false} SetKeepsGuards(j: Json, log: string, seen: map<L.Pid, Reads>, p: L.Pid, r: Reads)
    requires GuardsIn(j, log, seen) && (r.Guarded? ==> Safe(j, log, r.torn))
    ensures GuardsIn(j, log, seen[p := r])
  {
  }

  lemma {:induction false} FinishedIsWhole(j: Json, log: string)
    requires !Torn(log)
    ensures Whole(j, OpenLine(log))
  {
    assert OpenLine(log) == [] && SkipBlanks([]) == [];
  }

  lemma {:induction false} ForeignKeepsGuards(c: Config, s: State, text: string)
    requires GuardsHold(c, s) && (Exposed(s) ==> Whole(c.json, OpenLine(s.log + text)))
    ensures GuardsIn(c.json, s.log + text, s.seen)
  {
  }

  lemma {:induction false} StepKeepsGuards(c: Config, s: State, a: Action)
    requires GuardsHold(c, s) && Can(c, s, a)
    requires a.Foreign? && Exposed(s) ==> Whole(c.json, OpenLine(Do(c, s, a).log))
    ensures GuardsHold(c, Do(c, s, a))
  {
    match a {
      case LockStep(b) =>
        if b.Release? || b.Create? || b.Crash? {
          SetKeepsGuards(c.json, s.log, s.seen, b.p, Nothing);
        }
      case ReadMax(p) => SetKeepsGuards(c.json, s.log, s.seen, p, MaxRead(s.log));
      case ReadIds(p) => SetKeepsGuards(c.json, s.log, s.seen, p, IdsRead(ReadsOf(s, p).t1, s.log));
      case Guard(p) =>
        if !Torn(s.log) {
          FinishedIsWhole(c.json, s.log);
        }
        SetKeepsGuards(c.json, s.log, s.seen, p, Guarded(ReadsOf(s, p).t1, ReadsOf(s, p).t2, Torn(s.log)));
      case Write(p, ts, ds) => WriteKeepsGuards(c, s, p, ts, ds);
      case Foreign(text) => ForeignKeepsGuards(c, s, text);
    }
  }

  lemma {:induction false} WriteKeepsGuards(c: Config, s: State, p: L.Pid, ts: seq<string>, ds: seq<Draft>)
    requires Can(c, s, Write(p, ts, ds))
    ensures GuardsHold(c, Do(c, s, Write(p, ts, ds)))
  {
    WrittenEndsLine(c.json, s.log, ReadsOf(s, p).torn, NewMessages(c, s, p, ts, ds));
    FinishedIsWhole(c.json, Do(c, s, Write(p, ts, ds)).log);
  }

  lemma {:induction false} CarefulRunsAreSafe(c: Config, s: State, acts: seq<Action>)
    requires GuardsHold(c, s) && CanRun(c, s, acts) && CarefulWriters(c, s, acts)
    ensures AllSafe(c, s, acts)
    decreases |acts|
  {
    if acts != [] {
      StepKeepsGuards(c, s, acts[0]);
      CarefulRunsAreSafe(c, Do(c, s, acts[0]), acts[1..]);
    }
  }

  // ----- when posters hold the lock ---------------------------------------------------------

  /** Every write of the run is made no later than `staleAfter` after its poster took the lock. */
  predicate Prompt(c: Config, s: State, acts: seq<Action>)
    requires CanRun(c, s, acts)
    decreases |acts|
  {
    acts == [] ||
    (&& (acts[0].Write? ==> L.YoungHolder(c.lock, s.lock, acts[0].p))
     && Prompt(c, Do(c, s, acts[0]), acts[1..]))
  }

  /** Posters that finish within `staleAfter` always write under their own lock. */
  lemma {:induction false} PromptRunIsLocked(c: Config, s: State, acts: seq<Action>)
    requires L.Inv(c.lock, s.lock) && CanRun(c, s, acts) && Prompt(c, s, acts)
    ensures Locked(c, s, acts)
    decreases |acts|
  {
    if acts != [] {
      var a := acts[0];
      if a.LockStep? {
        L.StepKeepsInv(c.lock, s.lock, a.a);
      } else if a.Write? {
        assert L.ProcInv(c.lock, s.lock, a.p);
      }
      PromptRunIsLocked(c, Do(c, s, a), acts[1..]);
    }
  }

  /** Posters that finish within `staleAfter`, beside lockless writers that do not leave a broken line between a guard
      and its write, write pairwise distinct ids that rise per author, and lose no message. */
  lemma {:induction false} PromptPostersNeverCollide(c: Config, s0: State, acts: seq<Action>, i: nat, k: nat)
    requires Lawful(c.json) && Gluing(c.json) && Init(s0)
    requires CanRun(c, s0, acts) && Prompt(c, s0, acts) && CarefulWriters(c, s0, acts)
    requires i < k < |Run(c, s0, acts).written|
    ensures var s := Run(c, s0, acts); var a, b := s.written[i], s.written[k];
      && a.message.id != b.message.id
      && (a.who == b.who ==> a.number < b.number)
      && a.message in DecodeLog(c.json, s.log) && b.message in DecodeLog(c.json, s.log)
  {
    L.InitInv(c.lock, s0.lock);
    PromptRunIsLocked(c, s0, acts);
    CarefulRunsAreSafe(c, s0, acts);
    PostedIdsAreDistinct(c, s0, acts, i, k);
  }

  // ----- runs that show the conditions are needed -------------------------------------------

  /** One more step of a run. */
  lemma {:induction false} OneMore(c: Config, s0: State, acts: seq<Action>, a: Action)
    requires CanRun(c, s0, acts) && Can(c, Run(c, s0, acts), a)
    ensures CanRun(c, s0, acts + [a])
    ensures Run(c, s0, acts + [a]) == Do(c, Run(c, s0, acts), a)
    ensures Locked(c, s0, acts) && (a.Write? ==> L.OwnLock(Run(c, s0, acts).lock, a.p)) ==> Locked(c, s0, acts + [a])
    decreases |acts|
  {
    if acts == [] {
      assert acts + [a] == [a] && [a][1..] == [];
    } else {
      assert (acts + [a])[0] == acts[0] && (acts + [a])[1..] == acts[1..] + [a];
      OneMore(c, Do(c, s0, acts[0]), acts[1..], a);
    }
  }

  function Pair(now: real, file: Option<L.Holder>, q0: L.Proc, q1: L.Proc, minted: map<L.Token, L.Pid>): L.State {
    L.State(now, file, map[0 := q0, 1 := q1], minted)
  }

  ghost predicate Reached(c: Config, s0: State, acts: seq<Action>, s: State) {
    forall k: nat :: Peek(k) ==> CanRun(c, s0, acts) && Run(c, s0, acts) == s && Locked(c, s0, acts)
  }

  lemma {:induction false} Reach(c: Config, s0: State, acts: seq<Action>, s: State, a: Action, s': State)
    requires Reached(c, s0, acts, s) && Can(c, s, a) && Do(c, s, a) == s' && !a.Write?
    ensures Reached(c, s0, acts + [a], s')
  {
    assert Peek(0);
    OneMore(c, s0, acts, a);
  }

  const IDLE := L.Proc(L.Idle, 0, 0.0, true)
  const FIRST := L.Proc(L.Held(0.0), 0, 0.0, true)
  const OLD_LOCK := L.Holder(0, 0.0, 0)

  /** The first poster takes the lock, reads the log twice and looks at its end. */
  lemma {:induction false} FirstPosterReads(c: Config, s0: State) returns (acts: seq<Action>)
    requires s0 == State(Pair(0.0, None, IDLE, IDLE, map[]), [], map[], [])
    ensures Reached(c, s0, acts, State(Pair(0.0, Some(OLD_LOCK), FIRST, IDLE, map[0 := 0]), [], map[0 := Guarded([], [], false)], []))
  {
    var s1 := State(Pair(0.0, None, L.Proc(L.Creating, 0, 0.0, true), IDLE, map[0 := 0]), [], map[], []);
    var s2 := State(Pair(0.0, Some(OLD_LOCK), FIRST, IDLE, map[0 := 0]), [], map[0 := Nothing], []);
    var s3 := s2.(seen := map[0 := MaxRead([])]);
    var s4 := s2.(seen := map[0 := IdsRead([], [])]);
    var s5 := s2.(seen := map[0 := Guarded([], [], false)]);
    assert Do(c, s0, LockStep(L.Start(0, 0))) == s1;
    Reach(c, s0, [], s0, LockStep(L.Start(0, 0)), s1);
    acts := [] + [LockStep(L.Start(0, 0))];
    assert Do(c, s1, LockStep(L.Create(0))) == s2;
    Reach(c, s0, acts, s1, LockStep(L.Create(0)), s2);
    acts := acts + [LockStep(L.Create(0))];
    assert Do(c, s2, ReadMax(0)) == s3;
    Reach(c, s0, acts, s2, ReadMax(0), s3);
    acts := acts + [ReadMax(0)];
    assert Do(c, s3, ReadIds(0)) == s4;
    Reach(c, s0, acts, s3, ReadIds(0), s4);
    acts := acts + [ReadIds(0)];
    assert Do(c, s4, Guard(0)) == s5;
    Reach(c, s0, acts, s4, Guard(0), s5);
    acts := acts + [Guard(0)];
  }

  function Contest(file: Option<L.Holder>, second: L.Phase): State {
    State(Pair(121.0, file, FIRST, L.Proc(second, 1, 121.0, true), map[0 := 0, 1 := 1]),
          [], map[0 := Guarded([], [], false), 1 := Nothing], [])
  }

  /** More than `staleAfter` later the second one arrives and reads the lock of the first. */
  lemma {:induction false} SecondPosterArrives(c: Config, s0: State, acts0: seq<Action>) returns (acts: seq<Action>)
    requires Reached(c, s0, acts0, State(Pair(0.0, Some(OLD_LOCK), FIRST, IDLE, map[0 := 0]), [], map[0 := Guarded([], [], false)], []))
    ensures Reached(c, s0, acts, Contest(Some(OLD_LOCK), L.Judging(OLD_LOCK)))
  {
    var seen := map[0 := Guarded([], [], false)];
    var s := State(Pair(0.0, Some(OLD_LOCK), FIRST, IDLE, map[0 := 0]), [], seen, []);
    var s1 := State(Pair(121.0, Some(OLD_LOCK), FIRST, IDLE, map[0 := 0]), [], seen, []);
    var s2 := Contest(Some(OLD_LOCK), L.Creating).(seen := seen);
    assert Do(c, s, LockStep(L.Tick(121.0))) == s1;
    Reach(c, s0, acts0, s, LockStep(L.Tick(121.0)), s1);
    acts := acts0 + [LockStep(L.Tick(121.0))];
    assert Do(c, s1, LockStep(L.Start(1, 1))) == s2;
    Reach(c, s0, acts, s1, LockStep(L.Start(1, 1)), s2);
    acts := acts + [LockStep(L.Start(1, 1))];
    assert Do(c, s2, LockStep(L.Create(1))) == Contest(Some(OLD_LOCK), L.Reading);
    Reach(c, s0, acts, s2, LockStep(L.Create(1)), Contest(Some(OLD_LOCK), L.Reading));
    acts := acts + [LockStep(L.Create(1))];
    assert Do(c, Contest(Some(OLD_LOCK), L.Reading), LockStep(L.Read(1))) == Contest(Some(OLD_LOCK), L.Judging(OLD_LOCK));
    Reach(c, s0, acts, Contest(Some(OLD_LOCK), L.Reading), LockStep(L.Read(1)), Contest(Some(OLD_LOCK), L.Judging(OLD_LOCK)));
    acts := acts + [LockStep(L.Read(1))];
  }

  /** It takes the lock over, the first one still alive and still believing it holds it. */
  lemma {:induction false} SecondPosterSteals(c: Config, s0: State, acts0: seq<Action>) returns (acts: seq<Action>)
    requires c.lock == L.Config(20.0, 120.0)
    requires Reached(c, s0, acts0, Contest(Some(OLD_LOCK), L.Judging(OLD_LOCK)))
    ensures Reached(c, s0, acts, Contest(Some(L.Holder(1, 121.0, 1)), L.Held(121.0)))
  {
    var s1, s2 := Contest(Some(OLD_LOCK), L.Deleting(OLD_LOCK)), Contest(None, L.Creating);
    assert Do(c, Contest(Some(OLD_LOCK), L.Judging(OLD_LOCK)), LockStep(L.Judge(1, true))) == s1;
    Reach(c, s0, acts0, Contest(Some(OLD_LOCK), L.Judging(OLD_LOCK)), LockStep(L.Judge(1, true)), s1);
    acts := acts0 + [LockStep(L.Judge(1, true))];
    assert Do(c, s1, LockStep(L.Delete(1))) == s2;
    Reach(c, s0, acts, s1, LockStep(L.Delete(1)), s2);
    acts := acts + [LockStep(L.Delete(1))];
    assert Do(c, s2, LockStep(L.Create(1))) == Contest(Some(L.Holder(1, 121.0, 1)), L.Held(121.0));
    Reach(c, s0, acts, s2, LockStep(L.Create(1)), Contest(Some(L.Holder(1, 121.0, 1)), L.Held(121.0)));
    acts := acts + [LockStep(L.Create(1))];
  }

  /** Both reads found no message. */
  predicate FoundNothing(j: Json, r: Reads) {
    r.Guarded? && DecodeLog(j, r.t1) == [] && DecodeLog(j, r.t2) == []
  }

  lemma {:induction false} FirstNumber(c: Config, s: State, p: L.Pid)
    requires FoundNothing(c.json, ReadsOf(s, p))
    ensures NewNumbers(c, s, p, 1) == [1]
  {
    IdsInjective(c.who(p));
    assert IdsOf([]) == {};
    assert NextFree(Ids(c.who(p)), 1, {}) == 1;
    assert Numbers(Ids(c.who(p)), 1, {} + {Ids(c.who(p))(1)}, 0) == [];
  }

  function First(c: Config, p: L.Pid, t: string, d: Draft): Message {
    MessageOf(c.who(p), FormatId(c.who(p), 1), t, d)
  }

  /** A single message numbered from reads that found none. */
  lemma {:induction false} WriteOne(c: Config, s0: State, acts: seq<Action>, s: State, p: L.Pid, t: string, d: Draft)
    returns (acts': seq<Action>, s': State)
    requires CanRun(c, s0, acts) && s == Run(c, s0, acts)
    requires Holding(s, p) && FoundNothing(c.json, ReadsOf(s, p)) && Clean(c.json.dumps(First(c, p, t, d)))
    ensures CanRun(c, s0, acts') && Run(c, s0, acts') == s'
    ensures Locked(c, s0, acts) && L.OwnLock(s.lock, p) ==> Locked(c, s0, acts')
    ensures s'.lock == s.lock && s'.seen == s.seen[p := Nothing]
    ensures s'.log == Written(c.json, s.log, ReadsOf(s, p).torn, [First(c, p, t, d)])
    ensures |s'.written| == |s.written| + 1 && s'.written[..|s.written|] == s.written
    ensures s'.written[|s.written|].message == First(c, p, t, d)
  {
    FirstNumber(c, s, p);
    NewEntryAt(c, s, p, [t], [d], 0);
    IdsInjective(c.who(p));
    BatchAt(c.who(p), Ids(c.who(p)), 0, {}, [t], [d], 0);
    assert IdsOf([]) == {};
    assert NewMessages(c, s, p, [t], [d]) == [First(c, p, t, d)];
    OneMore(c, s0, acts, Write(p, [t], [d]));
    acts', s' := acts + [Write(p, [t], [d])], Do(c, s, Write(p, [t], [d]));
  }

  /** The three looks at the log that come before a write. */
  lemma {:induction false} Look(c: Config, s0: State, acts: seq<Action>, s: State, p: L.Pid)
    returns (acts': seq<Action>, s': State)
    requires Reached(c, s0, acts, s) && Holding(s, p) && ReadsOf(s, p).Nothing?
    ensures Reached(c, s0, acts', s')
    ensures s' == s.(seen := s.seen[p := Guarded(s.log, s.log, Torn(s.log))])
  {
    var s1 := Do(c, s, ReadMax(p));
    Reach(c, s0, acts, s, ReadMax(p), s1);
    acts' := acts + [ReadMax(p)];
    var s2 := Do(c, s1, ReadIds(p));
    Reach(c, s0, acts', s1, ReadIds(p), s2);
    acts' := acts' + [ReadIds(p)];
    s' := Do(c, s2, Guard(p));
    Reach(c, s0, acts', s2, Guard(p), s');
    acts' := acts' + [Guard(p)];
    assert s'.seen == s.seen[p := Guarded(s.log, s.log, Torn(s.log))];
  }

  /** The age limit is needed: a live poster whose lock was stolen as too old and that writes all the
      same writes an id that is already in the log. */
  lemma {:induction false} LatePosterDuplicatesId(c: Config, t: string, d: Draft) returns (acts: seq<Action>)
    requires c.lock == L.Config(20.0, 120.0) && c.who(0) == c.who(1)
    requires Clean(c.json.dumps(First(c, 0, t, d)))
    ensures var s0 := State(Pair(0.0, None, IDLE, IDLE, map[]), [], map[], []);
      && CanRun(c, s0, acts)
      && var w := Run(c, s0, acts).written; |w| == 2 && w[0].message.id == w[1].message.id
  {
    var s0 := State(Pair(0.0, None, IDLE, IDLE, map[]), [], map[], []);
    acts := FirstPosterReads(c, s0);
    acts := SecondPosterArrives(c, s0, acts);
    acts := SecondPosterSteals(c, s0, acts);
    var s := Contest(Some(L.Holder(1, 121.0, 1)), L.Held(121.0));
    acts, s := Look(c, s0, acts, s, 1);
    assert Peek(0);
    acts, s := WriteOne(c, s0, acts, s, 1, t, d);
    acts, s := WriteOne(c, s0, acts, s, 0, t, d);
  }

  // ----- a lockless writer between guard and write ------------------------------------------

  /** A batch of one behind a broken line that arrived after the guard: no message can be read. */
  lemma {:induction false} BrokenLineHides(j: Json, broken: string, m: Message)
    requires Lawful(j) && Gluing(j) && broken != [] && '\n' !in broken && !Blank(broken[0]) && j.raw(broken).Bad?
    ensures DecodeLog(j, Written(j, broken, false, [m])) == []
  {
    OneLine(j, broken);
    assert OpenLine(broken) == broken;
    assert [m][1..] == [];
    UnguardedWrite(j, broken, [m]);
  }

  /** The first poster gives the lock back and the second one takes it. */
  lemma {:induction false} HandOver(c: Config, s0: State, acts: seq<Action>, s: State) returns (acts': seq<Action>, s': State)
    requires Reached(c, s0, acts, s)
    requires s.lock == Pair(0.0, Some(OLD_LOCK), FIRST, IDLE, map[0 := 0]) && s.seen == map[0 := Nothing]
    ensures Reached(c, s0, acts', s')
    ensures s'.log == s.log && s'.written == s.written && s'.seen == map[0 := Nothing, 1 := Nothing]
    ensures s'.lock == Pair(0.0, Some(L.Holder(1, 0.0, 1)), IDLE, L.Proc(L.Held(0.0), 1, 0.0, true), map[0 := 0, 1 := 1])
  {
    var s1 := s.(lock := Pair(0.0, None, IDLE, IDLE, map[0 := 0]), seen := map[0 := Nothing]);
    assert Do(c, s, LockStep(L.Release(0))) == s1;
    Reach(c, s0, acts, s, LockStep(L.Release(0)), s1);
    acts' := acts + [LockStep(L.Release(0))];
    acts', s' := SecondTakes(c, s0, acts', s1);
  }

  lemma {:induction false} SecondTakes(c: Config, s0: State, acts: seq<Action>, s: State) returns (acts': seq<Action>, s': State)
    requires Reached(c, s0, acts, s)
    requires s.lock == Pair(0.0, None, IDLE, IDLE, map[0 := 0]) && s.seen == map[0 := Nothing]
    ensures Reached(c, s0, acts', s')
    ensures s'.log == s.log && s'.written == s.written && s'.seen == map[0 := Nothing, 1 := Nothing]
    ensures s'.lock == Pair(0.0, Some(L.Holder(1, 0.0, 1)), IDLE, L.Proc(L.Held(0.0), 1, 0.0, true), map[0 := 0, 1 := 1])
  {
    var s1 := s.(lock := Pair(0.0, None, IDLE, L.Proc(L.Creating, 1, 0.0, true), map[0 := 0, 1 := 1]));
    assert Do(c, s, LockStep(L.Start(1, 1))) == s1;
    Reach(c, s0, acts, s, LockStep(L.Start(1, 1)), s1);
    acts' := acts + [LockStep(L.Start(1, 1))];
    s' := Do(c, s1, LockStep(L.Create(1)));
    Reach(c, s0, acts', s1, LockStep(L.Create(1)), s');
    acts' := acts' + [LockStep(L.Create(1))];
  }

  /** Safety of the writes is needed: with every write under its own lock, a lockless writer that leaves a broken line
      between a guard and its write hides the message written, and the next poster gives its id out again. */
  lemma {:induction false} BrokenLineRepeatsId(c: Config, broken: string, t: string, d: Draft) returns (acts: seq<Action>)
    requires Lawful(c.json) && Gluing(c.json) && c.who(0) == c.who(1) && Clean(c.json.dumps(First(c, 0, t, d)))
    requires broken != [] && '\n' !in broken && !Blank(broken[0]) && c.json.raw(broken).Bad?
    ensures var s0 := State(Pair(0.0, None, IDLE, IDLE, map[]), [], map[], []);
      && CanRun(c, s0, acts) && Locked(c, s0, acts)
      && var w := Run(c, s0, acts).written; |w| == 2 && w[0].message.id == w[1].message.id
  {
    var s0 := State(Pair(0.0, None, IDLE, IDLE, map[]), [], map[], []);
    var s;
    acts, s := BrokenFirst(c, s0, broken, t, d);
    acts, s := HandOver(c, s0, acts, s);
    acts, s := Look(c, s0, acts, s, 1);
    assert Peek(0);
    acts, s := WriteOne(c, s0, acts, s, 1, t, d);
  }

  lemma {:induction false} BrokenFirst(c: Config, s0: State, broken: string, t: string, d: Draft)
    returns (acts: seq<Action>, s: State)
    requires Lawful(c.json) && Gluing(c.json) && Clean(c.json.dumps(First(c, 0, t, d)))
    requires broken != [] && '\n' !in broken && !Blank(broken[0]) && c.json.raw(broken).Bad?
    requires s0 == State(Pair(0.0, None, IDLE, IDLE, map[]), [], map[], [])
    ensures Reached(c, s0, acts, s) && DecodeLog(c.json, s.log) == []
    ensures s.lock == Pair(0.0, Some(OLD_LOCK), FIRST, IDLE, map[0 := 0]) && s.seen == map[0 := Nothing]
    ensures |s.written| == 1 && s.written[0].message == First(c, 0, t, d)
  {
    acts := FirstPosterReads(c, s0);
    s := State(Pair(0.0, Some(OLD_LOCK), FIRST, IDLE, map[0 := 0]), [], map[0 := Guarded([], [], false)], []);
    var s1 := s.(log := broken);
    assert [] + broken == broken;
    Reach(c, s0, acts, s, Foreign(broken), s1);
    acts, s := acts + [Foreign(broken)], s1;
    assert Peek(0);
    acts, s := WriteOne(c, s0, acts, s, 0, t, d);
    BrokenLineHides(c.json, broken, First(c, 0, t, d));
  }
}

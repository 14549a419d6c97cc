/** The write lock of the forum (tools/forum_lock.py) as a step system: any number of processes,
    crashes at any point, time passing at any point.

    Named assumptions.  Create-and-write, compare-and-delete and token-checked release are one
    step each.  Tokens are never reused.  The clock does not go back.  The liveness probe never
    calls a live process dead (it may call a dead one alive).
 */
module ForumLock {
  import opened Basics

  type Pid = nat
  type Token = nat

  /** Contents of the lock file. */
  datatype Holder = Holder(token: Token, ts: real, pid: Pid)

  /** Where a process stands in `acquire`, or that it holds the lock, or that it gave up. */
  datatype Phase =
    | Idle
    | Creating
    | Reading
    | Judging(seen: Holder)
    | Deleting(seen: Holder)
    | Waiting
    | Held(since: real)
    | TimedOut

  datatype Proc = Proc(phase: Phase, token: Token, t0: real, alive: bool)

  datatype Config = Config(timeout: real, staleAfter: real)

  /** `minted` records which process each token was made for. */
  datatype State = State(now: real, file: Option<Holder>, procs: map<Pid, Proc>, minted: map<Token, Pid>)

  datatype Action =
    | Tick(d: real)
    | Crash(p: Pid)
    | Start(p: Pid, token: Token)
    | Create(p: Pid)
    | Read(p: Pid)
    | Judge(p: Pid, alive: bool)
    | Delete(p: Pid)
    | Wait(p: Pid)
    | Release(p: Pid)

  predicate Live(s: State, p: Pid) {
    p in s.procs && s.procs[p].alive
  }

  /** The holder's process is gone, or the lock is older than `staleAfter`. */
  predicate Stale(c: Config, s: State, h: Holder) {
    !Live(s, h.pid) || s.now - h.ts > c.staleAfter
  }

  predicate Can(c: Config, s: State, a: Action) {
    match a
    case Tick(d) => d >= 0.0
    case Crash(p) => Live(s, p)
    case Start(p, token) => Live(s, p) && (s.procs[p].phase.Idle? || s.procs[p].phase.TimedOut?) && token !in s.minted
    case Create(p) => Live(s, p) && s.procs[p].phase.Creating?
    case Read(p) => Live(s, p) && s.procs[p].phase.Reading?
    case Judge(p, alive) => Live(s, p) && s.procs[p].phase.Judging? && (Live(s, s.procs[p].phase.seen.pid) ==> alive)
    case Delete(p) => Live(s, p) && s.procs[p].phase.Deleting?
    case Wait(p) => Live(s, p) && s.procs[p].phase.Waiting?
    case Release(p) => Live(s, p) && s.procs[p].phase.Held?
  }

  function Move(s: State, p: Pid, phase: Phase): State
    requires p in s.procs
  {
    s.(procs := s.procs[p := s.procs[p].(phase := phase)])
  }

  /** The file is the very lock that was read: same token, same time stamp. */
  predicate SameLock(file: Option<Holder>, seen: Holder) {
    file.Some? && file.value.token == seen.token && file.value.ts == seen.ts
  }

  function Do(c: Config, s: State, a: Action): State
    requires Can(c, s, a)
  {
    match a
    case Tick(d) => s.(now := s.now + d)
    case Crash(p) => s.(procs := s.procs[p := s.procs[p].(alive := false)])
    case Start(p, token) =>
      s.(procs := s.procs[p := s.procs[p].(phase := Creating, token := token, t0 := s.now)],
         minted := s.minted[token := p])
    case Create(p) =>
      if s.file.None?
      then Move(s, p, Held(s.now)).(file := Some(Holder(s.procs[p].token, s.now, p)))
      else Move(s, p, Reading)
    case Read(p) =>
      if s.file.None? then Move(s, p, Waiting) else Move(s, p, Judging(s.file.value))
    case Judge(p, alive) =>
      var seen := s.procs[p].phase.seen;
      Move(s, p, if !alive || s.now - seen.ts > c.staleAfter then Deleting(seen) else Waiting)
    case Delete(p) =>
      if SameLock(s.file, s.procs[p].phase.seen)
      then Move(s, p, Creating).(file := None)
      else Move(s, p, Waiting)
    case Wait(p) =>
      Move(s, p, if s.now - s.procs[p].t0 > c.timeout then TimedOut else Creating)
    case Release(p) =>
      var keep := s.file.Some? && s.file.value.token != s.procs[p].token;
      Move(s, p, Idle).(file := if keep then s.file else None)
  }

  /** Processes idle, at most one leftover lock on disk, written by anybody. */
  predicate Init(s: State) {
    && (forall p :: p in s.procs ==> s.procs[p].phase.Idle?)
    && (s.file.Some? ==> s.file.value.token in s.minted && s.minted[s.file.value.token] == s.file.value.pid)
  }

  predicate CanRun(c: Config, s: State, acts: seq<Action>)
    decreases |acts|
  {
    acts == [] || (Can(c, s, acts[0]) && CanRun(c, Do(c, s, acts[0]), acts[1..]))
  }

  function Run(c: Config, s: State, acts: seq<Action>): State
    requires CanRun(c, s, acts)
    decreases |acts|
  {
    if acts == [] then s else Run(c, Do(c, s, acts[0]), acts[1..])
  }

  // ----- what every step keeps --------------------------------------------------------------

  /** The lock file is the one `p` created for the lock it holds. */
  predicate OwnLock(s: State, p: Pid) {
    p in s.procs && s.procs[p].phase.Held? && s.file == Some(Holder(s.procs[p].token, s.procs[p].phase.since, p))
  }

  /** A live holder whose lock is not older than `staleAfter`. */
  predicate YoungHolder(c: Config, s: State, p: Pid) {
    Live(s, p) && s.procs[p].phase.Held? && s.now - s.procs[p].phase.since <= c.staleAfter
  }

  predicate Minted(s: State, h: Holder) {
    h.token in s.minted && s.minted[h.token] == h.pid
  }

  predicate ProcInv(c: Config, s: State, p: Pid)
    requires p in s.procs
  {
    var q := s.procs[p];
    && (!q.phase.Idle? ==> q.token in s.minted && s.minted[q.token] == p)
    && (q.phase.Judging? || q.phase.Deleting? ==> Minted(s, q.phase.seen))
    && (q.phase.Deleting? ==> Stale(c, s, q.phase.seen))
    && (YoungHolder(c, s, p) ==> OwnLock(s, p))
  }

  predicate Inv(c: Config, s: State) {
    && (s.file.Some? ==> Minted(s, s.file.value))
    && forall p :: p in s.procs ==> ProcInv(c, s, p)
  }

  lemma {:induction false} InitInv(c: Config, s: State)
    requires Init(s)
    ensures Inv(c, s)
  {
  }

  lemma {:induction false} StepKeepsInv(c: Config, s: State, a: Action)
    requires Inv(c, s) && Can(c, s, a)
    ensures Inv(c, Do(c, s, a))
  {
    var s' := Do(c, s, a);
    forall p | p in s'.procs ensures ProcInv(c, s', p) {
      assert ProcInv(c, s, p);
      if a.Create? || a.Delete? || a.Release? {
        assert ProcInv(c, s, a.p);
      }
    }
  }

  lemma {:induction false} RunKeepsInv(c: Config, s: State, acts: seq<Action>)
    requires Inv(c, s) && CanRun(c, s, acts)
    ensures Inv(c, Run(c, s, acts))
    decreases |acts|
  {
    if acts != [] {
      StepKeepsInv(c, s, acts[0]);
      RunKeepsInv(c, Do(c, s, acts[0]), acts[1..]);
    }
  }

  /** In every reachable state the lock file carries the token of every live holder younger than
      `staleAfter`. */
  lemma {:induction false} YoungHoldersOwnTheFile(c: Config, s0: State, acts: seq<Action>, p: Pid)
    requires Init(s0) && CanRun(c, s0, acts) && YoungHolder(c, Run(c, s0, acts), p)
    ensures OwnLock(Run(c, s0, acts), p)
  {
    InitInv(c, s0);
    RunKeepsInv(c, s0, acts);
    assert ProcInv(c, Run(c, s0, acts), p);
  }

  /** Mutual exclusion: no reachable state has two live holders younger than `staleAfter`. */
  lemma {:induction false} MutualExclusion(c: Config, s0: State, acts: seq<Action>, p: Pid, q: Pid)
    requires Init(s0) && CanRun(c, s0, acts)
    requires YoungHolder(c, Run(c, s0, acts), p) && YoungHolder(c, Run(c, s0, acts), q)
    ensures p == q
  {
    YoungHoldersOwnTheFile(c, s0, acts, p);
    YoungHoldersOwnTheFile(c, s0, acts, q);
  }

  /** A step that removes or replaces a lock file is its owner's release, or a steal of a lock whose
      owner is dead or past `staleAfter`. */
  lemma {:induction false} OnlyStaleLocksAreTaken(c: Config, s0: State, acts: seq<Action>, a: Action)
    requires Init(s0) && CanRun(c, s0, acts)
    requires var s := Run(c, s0, acts); s.file.Some? && Can(c, s, a) && Do(c, s, a).file != s.file
    ensures var s := Run(c, s0, acts);
      && Do(c, s, a).file.None?
      && (|| (a.Release? && s.file.value.pid == a.p)
          || (a.Delete? && Stale(c, s, s.file.value)))
  {
    InitInv(c, s0);
    RunKeepsInv(c, s0, acts);
    assert ProcInv(c, Run(c, s0, acts), a.p);
  }

  predicate Acquiring(phase: Phase) {
    phase.Creating? || phase.Reading? || phase.Judging? || phase.Deleting? || phase.Waiting?
  }

  /** `acquire` is left in two ways only: holding a lock file that is its own, or with a timeout
      after more than `timeout` of waiting. */
  lemma {:induction false} AcquireEnds(c: Config, s: State, a: Action, p: Pid)
    requires Can(c, s, a) && p in s.procs && Acquiring(s.procs[p].phase)
    ensures var s' := Do(c, s, a);
      && p in s'.procs
      && (!Acquiring(s'.procs[p].phase) ==>
            || (OwnLock(s', p) && s.file.None? && s'.procs[p].phase.since == s'.now)
            || (s'.procs[p].phase.TimedOut? && s'.now - s'.procs[p].t0 > c.timeout && s'.file == s.file))
  {
  }

  /** An orphaned lock does not block the forum: a process about to create the file takes over a
      stale lock in five of its own steps. */
  lemma {:induction false} OrphanIsTakenOver(c: Config, s: State, p: Pid)
    requires Live(s, p) && s.procs[p].phase.Creating?
    requires s.file.Some? && Stale(c, s, s.file.value)
    ensures exists alive :: var acts := [Create(p), Read(p), Judge(p, alive), Delete(p), Create(p)];
              CanRun(c, s, acts) && OwnLock(Run(c, s, acts), p)
  {
    var h := s.file.value;
    var alive := Live(s, h.pid);
    var s1 := Do(c, s, Create(p));
    var s2 := Do(c, s1, Read(p));
    var s3 := Do(c, s2, Judge(p, alive));
    var s4 := Do(c, s3, Delete(p));
    var s5 := Do(c, s4, Create(p));
    assert OwnLock(s5, p);
    var acts := [Create(p), Read(p), Judge(p, alive), Delete(p), Create(p)];
    RunCons(c, s, acts[0], acts[1..]);
    RunCons(c, s1, acts[1], acts[2..]);
    RunCons(c, s2, acts[2], acts[3..]);
    RunCons(c, s3, acts[3], acts[4..]);
    RunCons(c, s4, acts[4], []);
    assert acts[1..] == [acts[1]] + acts[2..] && acts[2..] == [acts[2]] + acts[3..];
    assert acts[3..] == [acts[3]] + acts[4..] && acts[4..] == [acts[4]] + [];
    assert acts == [acts[0]] + acts[1..];
  }

  lemma {:induction false} RunCons(c: Config, s: State, a: Action, acts: seq<Action>)
    requires Can(c, s, a)
    ensures CanRun(c, s, [a] + acts) == CanRun(c, Do(c, s, a), acts)
    ensures CanRun(c, s, [a] + acts) ==> Run(c, s, [a] + acts) == Run(c, Do(c, s, a), acts)
  {
    assert ([a] + acts)[1..] == acts;
  }

  predicate OwnAcquireStep(a: Action, p: Pid) {
    (a.Create? || a.Read? || a.Judge? || a.Delete? || a.Wait?) && a.p == p
  }

  function StepsLeft(s: State, p: Pid): nat
    requires p in s.procs
  {
    match s.procs[p].phase
    case Creating => if s.file.None? then 1 else 5
    case Reading => if s.file.None? then 2 else 4
    case Judging(_) => 3
    case Deleting(_) => 2
    case Waiting => 1
    case _ => 0
  }

  /** Past its timeout a process that nobody disturbs leaves `acquire` within five steps. */
  lemma {:induction false} AcquireIsBounded(c: Config, s: State, p: Pid, acts: seq<Action>)
    requires p in s.procs && s.now - s.procs[p].t0 > c.timeout
    requires CanRun(c, s, acts) && forall i :: 0 <= i < |acts| ==> OwnAcquireStep(acts[i], p)
    ensures |acts| <= StepsLeft(s, p) <= 5
    ensures p in Run(c, s, acts).procs
    ensures |acts| == StepsLeft(s, p) ==> !Acquiring(Run(c, s, acts).procs[p].phase)
    decreases |acts|
  {
    if acts != [] {
      assert OwnAcquireStep(acts[0], p);
      var s' := Do(c, s, acts[0]);
      assert StepsLeft(s', p) < StepsLeft(s, p);
      AcquireIsBounded(c, s', p, acts[1..]);
    }
  }
}

/** When generation under the JSON token machine (tools/chat_v6.py, `JSONSyntaxStateMachine`) can get stuck: for every
    supply of token texts, the exact condition under which each reachable unfinished state can be completed.

    A supply says which texts the vocabulary can produce outside strings; inside a string any text may come.
 */
module JsonFinish {
  import opened Basics
  import opened JsonMachine

  type Supply = string -> bool

  /** `r` is offered and, unless it is the inside of a string, supplied. */
  predicate Takes(sp: Supply, m: Machine, r: string) {
    Offers(m, r) && ((m.mode == InString && r != "\"") || sp(r))
  }

  predicate Taken(sp: Supply, m: Machine, rs: seq<string>)
    decreases |rs|
  {
    rs == [] || (Takes(sp, m, rs[0]) && Taken(sp, Step(m, rs[0]), rs[1..]))
  }

  predicate AllSupplied(sp: Supply, rs: seq<string>) {
    forall i :: 0 <= i < |rs| ==> sp(rs[i])
  }

  ghost predicate CanFinish(sp: Supply, m: Machine) {
    exists more: seq<string> :: Taken(sp, m, more) && Feed(m, more).completed
  }

  /** No run over supplied texts ends where nothing supplied can complete it. */
  ghost predicate NeverStuck(sp: Supply) {
    forall rs: seq<string> :: OfferedRun(START, rs) && AllSupplied(sp, rs) && !Feed(START, rs).completed ==>
      CanFinish(sp, Feed(START, rs))
  }

  predicate ScalarStart(r: string) {
    ClassOf(r) == Quote || ClassOf(r) == Literal || ClassOf(r) == Number
  }

  ghost predicate HasScalar(sp: Supply) {
    exists r: string :: sp(r) && ScalarStart(r)
  }

  function Opener(b: Bracket): string {
    if b == Curly then "{" else "["
  }

  /** What a vocabulary must have: a closer for each opener, a comma as soon as a bare value can be written at the top,
      a colon as soon as a key can be written, and some way to write a composite. */
  ghost predicate Completable(sp: Supply) {
    && (forall b :: sp(Opener(b)) ==> sp(Closer(b)))
    && (HasScalar(sp) ==> sp(","))
    && (sp("{") && sp("\"") ==> sp(":"))
    && (sp("{") || (sp("[") && HasScalar(sp)))
  }

  // ----- what a reachable state shows of the supply -------------------------------------------------------------

  ghost predicate Supplied(sp: Supply, m: Machine) {
    && (forall i :: 0 <= i < |m.stack| ==> sp(Opener(m.stack[i])))
    && (m.mode == InString || m.mode == Colon ==> sp("\""))
    && ((m.mode == AfterValue || m.mode == InNumber) && m.stack == [] ==> HasScalar(sp))
  }

  lemma {:induction false} QuoteIsScalar(sp: Supply)
    requires sp("\"")
    ensures HasScalar(sp)
  {
    PunctuationIsApart("\"");
    assert ScalarStart("\"");
  }

  /** A step opens a bracket, closes one or leaves them alone. */
  lemma {:induction false} StackMoves(m: Machine, r: string)
    requires Offers(m, r)
    ensures var stack := Step(m, r).stack;
            || stack == m.stack || (m.stack != [] && stack == m.stack[..|m.stack| - 1])
            || (m.mode == Value && exists b :: r == Opener(b) && stack == m.stack + [b])
  {
    if m.mode == Value && (r == "{" || r == "[") {
      PunctuationIsApart(r);
      var b := if r == "{" then Curly else Square;
      assert r == Opener(b);
    }
  }

  lemma {:induction false} StackSupplied(sp: Supply, m: Machine, r: string)
    requires Takes(sp, m, r) && forall i :: 0 <= i < |m.stack| ==> sp(Opener(m.stack[i]))
    ensures var stack := Step(m, r).stack; forall i :: 0 <= i < |stack| ==> sp(Opener(stack[i]))
  {
    StackMoves(m, r);
  }

  /** The step into a string, a number or the end of a value at the top. */
  lemma {:induction false} ModeMoves(m: Machine, r: string)
    requires Offers(m, r)
    ensures var m' := Step(m, r);
            && (m'.mode == InString || m'.mode == Colon ==> m.mode == m'.mode || r == "\"")
            && ((m'.mode == AfterValue || m'.mode == InNumber) && m'.stack == [] ==>
                  || (m.stack == [] && (m.mode == AfterValue || m.mode == InNumber))
                  || (ScalarStart(r) && (m.mode != InString || r == "\"")))
  {
    if IsPunctuation(r) || r == "\"" {
      PunctuationIsApart(r);
    }
  }

  lemma {:induction false} SuppliedStep(sp: Supply, m: Machine, r: string)
    requires WellPlaced(m) && Supplied(sp, m) && Takes(sp, m, r)
    ensures WellPlaced(Step(m, r)) && Supplied(sp, Step(m, r))
  {
    StepAgrees(m, Scan(m.stack, m.mode == InString, true), r);
    StackSupplied(sp, m, r);
    ModeMoves(m, r);
    if sp("\"") {
      QuoteIsScalar(sp);
    }
  }

  lemma {:induction false} SuppliedRun(sp: Supply, m: Machine, rs: seq<string>)
    requires WellPlaced(m) && Supplied(sp, m) && Taken(sp, m, rs)
    ensures WellPlaced(Feed(m, rs)) && Supplied(sp, Feed(m, rs))
    decreases |rs|
  {
    if rs != [] {
      SuppliedStep(sp, m, rs[0]);
      SuppliedRun(sp, Step(m, rs[0]), rs[1..]);
    }
  }

  // ----- enough: a plan to finish -------------------------------------------------------------------------------

  lemma {:induction false} ClosersSupplied(sp: Supply, stack: seq<Bracket>)
    requires forall b :: sp(Opener(b)) ==> sp(Closer(b))
    requires forall i :: 0 <= i < |stack| ==> sp(Opener(stack[i]))
    ensures AllSupplied(sp, Closers(stack))
  {
    if stack != [] {
      ClosersSupplied(sp, stack[..|stack| - 1]);
    }
  }

  /** With an opening brace the plan of the text machine is supplied. */
  lemma {:induction false} BracePlan(sp: Supply, m: Machine)
    requires Completable(sp) && sp("{") && WellPlaced(m) && Supplied(sp, m) && !m.completed
    ensures AllSupplied(sp, Finish(m))
  {
    assert Opener(Curly) == "{" && Closer(Curly) == "}";
    ClosersSupplied(sp, m.stack);
    if sp("\"") {
      QuoteIsScalar(sp);
    }
  }

  /** A value written as the scalar that starts with `r`. */
  function ScalarTexts(r: string): seq<string> {
    if r == "\"" then [r, r] else [r]
  }

  predicate Ended(m: Machine) {
    !m.completed && (m.mode == AfterValue || m.mode == InNumber)
  }

  lemma {:induction false} ScalarEnds(m: Machine, r: string)
    requires !m.completed && m.mode == Value && ScalarStart(r)
    ensures OfferedRun(m, ScalarTexts(r)) && Ended(Feed(m, ScalarTexts(r))) && Feed(m, ScalarTexts(r)).stack == m.stack
  {
    RunOne(m, r);
    if r == "\"" {
      PunctuationIsApart(r);
      RunOne(Step(m, r), r);
      RunConcat(m, [r], [r]);
      assert [r] + [r] == [r, r];
    }
  }

  /** A list of one scalar, for supplies without an opening brace. */
  function ListTexts(r: string): seq<string> {
    ["["] + (ScalarTexts(r) + ["]"])
  }

  lemma {:induction false} ListCompletes(m: Machine, r: string)
    requires !m.completed && m.mode == Value && m.stack == [] && ScalarStart(r)
    ensures OfferedRun(m, ListTexts(r)) && Feed(m, ListTexts(r)).completed
  {
    PunctuationIsApart("[");
    RunOne(m, "[");
    var m1 := Step(m, "[");
    assert m1.stack == [Square];
    ScalarEnds(m1, r);
    ClosersFinish(Feed(m1, ScalarTexts(r)));
    assert Closers([Square]) == ["]"];
    RunConcat(m1, ScalarTexts(r), ["]"]);
    RunConcat(m, ["["], ScalarTexts(r) + ["]"]);
  }

  /** The plan for supplies without an opening brace. */
  function ListPlan(m: Machine, r: string): seq<string> {
    if m.stack == [] then
      match m.mode
      case Value => ListTexts(r)
      case InString => ["\"", ","] + ListTexts(r)
      case _ => [","] + ListTexts(r)
    else
      match m.mode
      case Value => ScalarTexts(r) + Closers(m.stack)
      case InString => ["\""] + Closers(m.stack)
      case _ => Closers(m.stack)
  }

  lemma {:induction false} CommaThenList(m: Machine, r: string)
    requires Ended(m) && m.stack == [] && ScalarStart(r)
    ensures OfferedRun(m, [","] + ListTexts(r)) && Feed(m, [","] + ListTexts(r)).completed
  {
    PunctuationIsApart(",");
    RunOne(m, ",");
    ListCompletes(Step(m, ","), r);
    RunConcat(m, [","], ListTexts(r));
  }

  lemma {:induction false} QuoteEnds(m: Machine)
    requires !m.completed && m.mode == InString && !m.keyRole
    ensures OfferedRun(m, ["\""]) && Ended(Feed(m, ["\""])) && Feed(m, ["\""]).stack == m.stack
  {
    PunctuationIsApart("\"");
    RunOne(m, "\"");
  }

  lemma {:induction false} ListPlanAtTop(m: Machine, r: string)
    requires WellPlaced(m) && !m.completed && m.stack == [] && ScalarStart(r)
    ensures OfferedRun(m, ListPlan(m, r)) && Feed(m, ListPlan(m, r)).completed
  {
    if m.mode == Value {
      ListCompletes(m, r);
    } else if m.mode == InString {
      QuoteEnds(m);
      CommaThenList(Feed(m, ["\""]), r);
      RunConcat(m, ["\""], [","] + ListTexts(r));
      assert ["\"", ","] + ListTexts(r) == ["\""] + ([","] + ListTexts(r));
    } else {
      CommaThenList(m, r);
    }
  }

  /** Outside objects there are no key and colon positions. */
  lemma {:induction false} ListPlanInside(m: Machine, r: string)
    requires WellPlaced(m) && !m.completed && m.stack != [] && Top(m) == Square && ScalarStart(r)
    ensures OfferedRun(m, ListPlan(m, r)) && Feed(m, ListPlan(m, r)).completed
  {
    if m.mode == Value {
      ScalarEnds(m, r);
      ClosersFinish(Feed(m, ScalarTexts(r)));
      RunConcat(m, ScalarTexts(r), Closers(m.stack));
    } else if m.mode == InString {
      QuoteEnds(m);
      ClosersFinish(Feed(m, ["\""]));
      RunConcat(m, ["\""], Closers(m.stack));
    } else {
      ClosersFinish(m);
    }
  }

  lemma {:induction false} ListSupplied(sp: Supply, r: string)
    requires sp("[") && sp("]") && sp(r)
    ensures AllSupplied(sp, ListTexts(r)) && |ListTexts(r)| <= 4
  {
  }

  lemma {:induction false} SuppliedAppend(sp: Supply, a: seq<string>, b: seq<string>)
    requires AllSupplied(sp, a) && AllSupplied(sp, b)
    ensures AllSupplied(sp, a + b)
  {
  }

  lemma {:induction false} ListPlanSupplied(sp: Supply, m: Machine, r: string)
    requires Completable(sp) && sp("[") && sp(r) && ScalarStart(r) && WellPlaced(m) && Supplied(sp, m) && !m.completed
    ensures AllSupplied(sp, ListPlan(m, r)) && |ListPlan(m, r)| <= |m.stack| + 6
  {
    assert HasScalar(sp);
    assert Opener(Square) == "[" && Closer(Square) == "]";
    ListSupplied(sp, r);
    ClosersSupplied(sp, m.stack);
    ClosersLength(m.stack);
    if m.stack == [] {
      SuppliedAppend(sp, if m.mode == InString then ["\"", ","] else [","], ListTexts(r));
    } else {
      SuppliedAppend(sp, if m.mode == InString then ["\""] else ScalarTexts(r), Closers(m.stack));
    }
  }

  /** With what it takes, every reachable unfinished state is completed by at most four supplied texts more than its
      stack is deep, or six where there is no opening brace. */
  lemma {:induction false} SuppliedCanFinish(sp: Supply, rs: seq<string>) returns (more: seq<string>)
    requires Completable(sp) && Taken(sp, START, rs) && !Feed(START, rs).completed
    ensures var m := Feed(START, rs);
            && OfferedRun(m, more) && AllSupplied(sp, more) && Feed(m, more).completed
            && |more| <= |m.stack| + (if sp("{") then 4 else 6)
  {
    var m := Feed(START, rs);
    SuppliedRun(sp, START, rs);
    if sp("{") {
      more := Finish(m);
      BracePlan(sp, m);
      TakenIsOffered(sp, START, rs);
      UnfinishedCanFinish(rs);
    } else {
      var r: string :| sp(r) && ScalarStart(r);
      more := ListPlan(m, r);
      ListPlanSupplied(sp, m, r);
      if m.stack == [] {
        ListPlanAtTop(m, r);
      } else {
        ListPlanInside(m, r);
      }
    }
  }

  lemma {:induction false} TakenIsOffered(sp: Supply, m: Machine, rs: seq<string>)
    requires Taken(sp, m, rs)
    ensures OfferedRun(m, rs)
    decreases |rs|
  {
    if rs != [] {
      TakenIsOffered(sp, Step(m, rs[0]), rs[1..]);
    }
  }

  lemma {:induction false} SuppliedIsTaken(sp: Supply, m: Machine, rs: seq<string>)
    requires OfferedRun(m, rs) && AllSupplied(sp, rs)
    ensures Taken(sp, m, rs)
    decreases |rs|
  {
    if rs != [] {
      SuppliedIsTaken(sp, Step(m, rs[0]), rs[1..]);
    }
  }

  // ----- needed: what every finishing run takes -----------------------------------------------------------------

  lemma {:induction false} BottomStays(m: Machine, r: string)
    requires WellPlaced(m) && m.stack != [] && Offers(m, r)
    ensures WellPlaced(Step(m, r))
    ensures Step(m, r).completed ==> r == Closer(m.stack[0]) && m.mode != InString
    ensures !Step(m, r).completed ==> Step(m, r).stack != [] && Step(m, r).stack[0] == m.stack[0]
  {
    if IsPunctuation(r) || r == "\"" {
      PunctuationIsApart(r);
    }
  }

  /** Whatever completes the machine closes the outermost bracket. */
  lemma {:induction false} NeedsCloser(sp: Supply, m: Machine, rs: seq<string>)
    requires WellPlaced(m) && m.stack != [] && Taken(sp, m, rs) && Feed(m, rs).completed
    ensures sp(Closer(m.stack[0]))
    decreases |rs|
  {
    BottomStays(m, rs[0]);
    if !Step(m, rs[0]).completed {
      NeedsCloser(sp, Step(m, rs[0]), rs[1..]);
    }
  }

  lemma {:induction false} NeedsComma(sp: Supply, m: Machine, rs: seq<string>)
    requires Ended(m) && m.stack == [] && Taken(sp, m, rs) && Feed(m, rs).completed
    ensures sp(",")
    decreases |rs|
  {
    if rs[0] != "," {
      NeedsComma(sp, Step(m, rs[0]), rs[1..]);
    }
  }

  lemma {:induction false} NeedsColon(sp: Supply, m: Machine, rs: seq<string>)
    requires !m.completed && m.mode == Colon && Taken(sp, m, rs) && Feed(m, rs).completed
    ensures sp(":")
    decreases |rs|
  {
    if rs[0] != ":" {
      NeedsColon(sp, Step(m, rs[0]), rs[1..]);
    }
  }

  lemma {:induction false} NeedsOpener(sp: Supply, m: Machine, rs: seq<string>)
    requires WellPlaced(m) && !m.completed && m.stack == [] && Taken(sp, m, rs) && Feed(m, rs).completed
    ensures sp("{") || sp("[")
    decreases |rs|
  {
    var r := rs[0];
    if IsPunctuation(r) || r == "\"" {
      PunctuationIsApart(r);
    }
    if m.mode != Value || (r != "{" && r != "[") {
      NeedsOpener(sp, Step(m, r), rs[1..]);
    }
  }

  lemma {:induction false} NeedsValue(sp: Supply, m: Machine, rs: seq<string>)
    requires !m.completed && m.mode == Value && Taken(sp, m, rs) && Feed(m, rs).completed
    ensures sp("{") || HasScalar(sp)
    decreases |rs|
  {
    var r := rs[0];
    if !ScalarStart(r) && r != "{" {
      if r == "[" {
        PunctuationIsApart(r);
      }
      NeedsValue(sp, Step(m, r), rs[1..]);
    }
  }

  // ----- the two together -----------------------------------------------------------------------------------------

  lemma {:induction false} Probe(sp: Supply, rs: seq<string>) returns (more: seq<string>)
    requires NeverStuck(sp) && OfferedRun(START, rs) && AllSupplied(sp, rs) && !Feed(START, rs).completed
    ensures Taken(sp, Feed(START, rs), more) && Feed(Feed(START, rs), more).completed
  {
    assert CanFinish(sp, Feed(START, rs));
    more :| Taken(sp, Feed(START, rs), more) && Feed(Feed(START, rs), more).completed;
  }

  lemma {:induction false} StuckWithoutCloser(sp: Supply, b: Bracket)
    requires NeverStuck(sp) && sp(Opener(b))
    ensures sp(Closer(b))
  {
    PunctuationIsApart(Opener(b));
    RunOne(START, Opener(b));
    var m := Step(START, Opener(b));
    assert m.stack == [b];
    var more := Probe(sp, [Opener(b)]);
    NeedsCloser(sp, m, more);
  }

  lemma {:induction false} StuckWithoutComma(sp: Supply, r: string)
    requires NeverStuck(sp) && sp(r) && ScalarStart(r)
    ensures sp(",")
  {
    ScalarEnds(START, r);
    var more := Probe(sp, ScalarTexts(r));
    NeedsComma(sp, Feed(START, ScalarTexts(r)), more);
  }

  lemma {:induction false} KeyRun() returns (m: Machine)
    ensures OfferedRun(START, ["{", "\"", "\""]) && Feed(START, ["{", "\"", "\""]) == m && !m.completed && m.mode == Colon
  {
    PunctuationIsApart("{");
    PunctuationIsApart("\"");
    var k := START.(stack := [Curly], mode := Key);
    assert START.stack + [Curly] == [Curly];
    RunOne(START, "{");
    RunOne(k, "\"");
    RunConcat(START, ["{"], ["\""]);
    var s := k.(keyRole := true, mode := InString);
    RunOne(s, "\"");
    RunConcat(START, ["{"] + ["\""], ["\""]);
    assert ["{"] + ["\""] + ["\""] == ["{", "\"", "\""];
    m := s.(mode := Colon);
  }

  lemma {:induction false} StuckWithoutColon(sp: Supply)
    requires NeverStuck(sp) && sp("{") && sp("\"")
    ensures sp(":")
  {
    var m := KeyRun();
    var more := Probe(sp, ["{", "\"", "\""]);
    NeedsColon(sp, m, more);
  }

  /** Without a colon a finished key is a dead end. */
  lemma {:induction false} KeyWithoutColonIsStuck(sp: Supply) returns (rs: seq<string>)
    requires sp("{") && sp("\"") && !sp(":")
    ensures OfferedRun(START, rs) && AllSupplied(sp, rs) && !Feed(START, rs).completed
    ensures !CanFinish(sp, Feed(START, rs))
  {
    rs := ["{", "\"", "\""];
    var m := KeyRun();
    if CanFinish(sp, m) {
      var more: seq<string> :| Taken(sp, m, more) && Feed(m, more).completed;
      NeedsColon(sp, m, more);
    }
  }

  lemma {:induction false} StuckWithoutValue(sp: Supply)
    requires NeverStuck(sp)
    ensures sp("{") || (sp("[") && HasScalar(sp))
  {
    var more := Probe(sp, []);
    NeedsOpener(sp, START, more);
    NeedsValue(sp, START, more);
  }

  /** Generation over a supply of texts never gets stuck if and only if the supply has what it takes. */
  lemma {:induction false} NeverStuckIff(sp: Supply)
    ensures NeverStuck(sp) <==> Completable(sp)
  {
    if NeverStuck(sp) {
      forall b | sp(Opener(b)) ensures sp(Closer(b)) {
        StuckWithoutCloser(sp, b);
      }
      if HasScalar(sp) {
        var r: string :| sp(r) && ScalarStart(r);
        StuckWithoutComma(sp, r);
      }
      if sp("{") && sp("\"") {
        StuckWithoutColon(sp);
      }
      StuckWithoutValue(sp);
    }
    if Completable(sp) {
      forall rs: seq<string> | OfferedRun(START, rs) && AllSupplied(sp, rs) && !Feed(START, rs).completed
        ensures CanFinish(sp, Feed(START, rs))
      {
        SuppliedIsTaken(sp, START, rs);
        var more := SuppliedCanFinish(sp, rs);
        SuppliedIsTaken(sp, Feed(START, rs), more);
      }
    }
  }
}

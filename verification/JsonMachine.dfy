/** The JSON token machine (tools/chat_v6.py, `JSONSyntaxStateMachine`): a pushdown automaton that
    says which vocabulary tokens may come next and advances on the one taken.

    This module holds the machine on token texts; `JsonTokens` puts the vocabulary around it and
    `JsonGrammar` gives its language.
 */
module JsonMachine {
  import opened Basics

  datatype Mode = Value | Key | Colon | AfterValue | InString | InNumber | Done

  datatype Bracket = Curly | Square

  /** `stack` has its top at the end.  `keyRole` says whether the string being read is a key. */
  datatype Machine = Machine(mode: Mode, stack: seq<Bracket>, keyRole: bool, completed: bool)

  const START := Machine(Value, [], false, false)

  // ----- classes of token texts ---------------------------------------------------------------

  predicate SpaceChar(c: char) {
    c == ' ' || c == '\n' || c == '\t' || c == '\r'
  }

  predicate IsSpace(r: string) {
    r != [] && forall i :: 0 <= i < |r| ==> SpaceChar(r[i])
  }

  predicate NumberChar(c: char) {
    IsDigit(c) || c == '.' || c == 'e' || c == 'E' || c == '+' || c == '-'
  }

  function NumberBody(r: string): string {
    if r != [] && r[0] == ' ' then r[1..] else r
  }

  /** One leading space allowed; then only number characters, at least one of them a digit. */
  predicate IsNumberPiece(r: string) {
    var body := NumberBody(r);
    && body != []
    && (forall i :: 0 <= i < |body| ==> NumberChar(body[i]))
    && exists i :: 0 <= i < |body| && IsDigit(body[i])
  }

  function StripSpaces(r: string): string {
    if r != [] && r[0] == ' ' then StripSpaces(r[1..]) else r
  }

  predicate IsLiteral(r: string) {
    StripSpaces(r) == "true" || StripSpaces(r) == "false" || StripSpaces(r) == "null"
  }

  predicate IsPunctuation(r: string) {
    r == "{" || r == "}" || r == "[" || r == "]" || r == ":" || r == ","
  }

  datatype Class = Punctuation | Quote | Space | Literal | Number | Other

  /** The class the machine files a token text under. */
  function ClassOf(r: string): Class {
    if IsPunctuation(r) then Punctuation
    else if r == "\"" then Quote
    else if IsSpace(r) then Space
    else if IsLiteral(r) then Literal
    else if IsNumberPiece(r) then Number
    else Other
  }

  /** Punctuation and the quote belong to no other class. */
  lemma {:induction false} PunctuationIsApart(r: string)
    requires IsPunctuation(r) || r == "\""
    ensures !IsSpace(r) && !IsLiteral(r) && !IsNumberPiece(r)
  {
    assert !SpaceChar(r[0]) && !NumberChar(r[0]);
    assert StripSpaces(r) == r && |r| == 1;
    assert NumberBody(r) == r;
  }

  // ----- one step -----------------------------------------------------------------------------

  function Top(m: Machine): Bracket
    requires m.stack != []
  {
    m.stack[|m.stack| - 1]
  }

  function Closer(b: Bracket): string {
    if b == Curly then "}" else "]"
  }

  /** Texts the machine offers. */
  predicate Offers(m: Machine, r: string) {
    && !m.completed
    && (|| ClassOf(r) == Space
        || match m.mode
           case Value => ClassOf(r) == Quote || ClassOf(r) == Number || ClassOf(r) == Literal || r == "{" || r == "["
           case Key => ClassOf(r) == Quote || (m.stack != [] && Top(m) == Curly && r == "}")
           case Colon => r == ":"
           case AfterValue => r == "," || (m.stack != [] && r == Closer(Top(m)))
           case InString => true
           case InNumber => ClassOf(r) == Number || r == "," || (m.stack != [] && r == Closer(Top(m)))
           case Done => false)
  }

  function Close(m: Machine): Machine {
    var stack := if m.stack != [] then m.stack[..|m.stack| - 1] else [];
    if stack == [] then m.(stack := stack, mode := Done, completed := true)
    else m.(stack := stack, mode := AfterValue)
  }

  function StepAfterValue(m: Machine, r: string): Machine {
    if r == "," then m.(mode := if m.stack != [] && Top(m) == Curly then Key else Value)
    else if r == "}" || r == "]" then Close(m)
    else m
  }

  function Step(m: Machine, r: string): Machine {
    if m.completed then m
    else if IsSpace(r) then (if m.mode == InNumber then m.(mode := AfterValue) else m)
    else
      match m.mode
      case InString => if r == "\"" then m.(mode := if m.keyRole then Colon else AfterValue) else m
      case InNumber =>
        if IsNumberPiece(r) then m else StepAfterValue(m.(mode := AfterValue), r)
      case Value =>
        if r == "{" then m.(stack := m.stack + [Curly], mode := Key)
        else if r == "[" then m.(stack := m.stack + [Square], mode := Value)
        else if r == "\"" then m.(keyRole := false, mode := InString)
        else if IsLiteral(r) then m.(mode := AfterValue)
        else if IsNumberPiece(r) then m.(mode := InNumber)
        else m
      case Key =>
        if r == "\"" then m.(keyRole := true, mode := InString)
        else if r == "}" then Close(m)
        else m
      case Colon => if r == ":" then m.(mode := Value) else m
      case AfterValue => StepAfterValue(m, r)
      case Done => m
  }

  /** A run that takes only offered texts. */
  predicate OfferedRun(m: Machine, rs: seq<string>)
    decreases |rs|
  {
    rs == [] || (Offers(m, rs[0]) && OfferedRun(Step(m, rs[0]), rs[1..]))
  }

  function Feed(m: Machine, rs: seq<string>): Machine
    decreases |rs|
  {
    if rs == [] then m else Feed(Step(m, rs[0]), rs[1..])
  }

  lemma {:induction false} RunConcat(m: Machine, a: seq<string>, b: seq<string>)
    ensures OfferedRun(m, a + b) <==> OfferedRun(m, a) && OfferedRun(Feed(m, a), b)
    ensures Feed(m, a + b) == Feed(Feed(m, a), b)
    decreases |a|
  {
    if a == [] {
      assert a + b == b;
    } else {
      assert (a + b)[0] == a[0] && (a + b)[1..] == a[1..] + b;
      RunConcat(Step(m, a[0]), a[1..], b);
    }
  }

  lemma {:induction false} RunOne(m: Machine, r: string)
    ensures OfferedRun(m, [r]) <==> Offers(m, r)
    ensures Feed(m, [r]) == Step(m, r)
  {
    assert [r][1..] == [];
  }

  // ----- reachable states ---------------------------------------------------------------------

  /** Brackets still open after a token sequence, strings skipped: read off the texts alone. */
  datatype Scan = Scan(open: seq<Bracket>, inString: bool, matched: bool)

  function ScanStep(s: Scan, r: string): Scan {
    if s.inString then s.(inString := r != "\"")
    else if r == "\"" then s.(inString := true)
    else if r == "{" then s.(open := s.open + [Curly])
    else if r == "[" then s.(open := s.open + [Square])
    else if r == "}" || r == "]" then
      if s.open != [] && r == Closer(s.open[|s.open| - 1])
      then s.(open := s.open[..|s.open| - 1])
      else s.(matched := false)
    else s
  }

  function ScanAll(rs: seq<string>): Scan {
    if rs == [] then Scan([], false, true)
    else ScanStep(ScanAll(rs[..|rs| - 1]), rs[|rs| - 1])
  }

  /** Key and colon positions are directly inside an object; a finished machine has no open bracket. */
  predicate WellPlaced(m: Machine) {
    && (m.completed <==> m.mode == Done)
    && (m.completed ==> m.stack == [])
    && (m.mode == Key || m.mode == Colon || (m.mode == InString && m.keyRole) ==> m.stack != [] && Top(m) == Curly)
  }

  predicate Agrees(m: Machine, s: Scan) {
    s.open == m.stack && s.matched && s.inString == (m.mode == InString)
  }

  lemma {:induction false} StepAgrees(m: Machine, s: Scan, r: string)
    requires WellPlaced(m) && Agrees(m, s) && Offers(m, r)
    ensures WellPlaced(Step(m, r)) && Agrees(Step(m, r), ScanStep(s, r))
    ensures Step(m, r).completed <==> m.stack != [] && Step(m, r).stack == []
  {
    if IsPunctuation(r) || r == "\"" {
      PunctuationIsApart(r);
    }
  }

  lemma {:induction false} FeedLast(m: Machine, rs: seq<string>)
    requires rs != []
    ensures Feed(m, rs) == Step(Feed(m, rs[..|rs| - 1]), rs[|rs| - 1])
    ensures OfferedRun(m, rs) <==>
              OfferedRun(m, rs[..|rs| - 1]) && Offers(Feed(m, rs[..|rs| - 1]), rs[|rs| - 1])
  {
    var n := |rs| - 1;
    assert rs == rs[..n] + [rs[n]];
    RunConcat(m, rs[..n], [rs[n]]);
    RunOne(Feed(m, rs[..n]), rs[n]);
  }

  /** In every run over offered texts the stack is the list of brackets opened and not closed
      outside strings, every closer matched its opener, keys and colons sit inside objects, and
      the machine is complete exactly when the outermost bracket has just been closed. */
  lemma {:induction false} StackIsOpenBrackets(rs: seq<string>)
    requires OfferedRun(START, rs)
    ensures WellPlaced(Feed(START, rs)) && Agrees(Feed(START, rs), ScanAll(rs))
    ensures Feed(START, rs).completed <==>
              rs != [] && ScanAll(rs).open == [] && ScanAll(rs[..|rs| - 1]).open != []
  {
    if rs != [] {
      var n := |rs| - 1;
      FeedLast(START, rs);
      StackIsOpenBrackets(rs[..n]);
      StepAgrees(Feed(START, rs[..n]), ScanAll(rs[..n]), rs[n]);
    }
  }

  // ----- every unfinished run can be finished -------------------------------------------------

  /** Closers for everything open, innermost first. */
  function Closers(stack: seq<Bracket>): seq<string> {
    if stack == [] then [] else [Closer(stack[|stack| - 1])] + Closers(stack[..|stack| - 1])
  }

  lemma {:induction false} ClosersLength(stack: seq<Bracket>)
    ensures |Closers(stack)| == |stack|
  {
    if stack != [] {
      ClosersLength(stack[..|stack| - 1]);
    }
  }

  lemma {:induction false} ClosersFinish(m: Machine)
    requires !m.completed && m.stack != [] && (m.mode == AfterValue || m.mode == InNumber || (m.mode == Key && Top(m) == Curly))
    ensures OfferedRun(m, Closers(m.stack)) && Feed(m, Closers(m.stack)).completed
    decreases |m.stack|
  {
    var c := Closer(Top(m));
    PunctuationIsApart(c);
    var m' := Step(m, c);
    assert m' == Close(m.(mode := AfterValue)) || m' == Close(m);
    assert Closers(m.stack)[1..] == Closers(m'.stack);
    if m'.stack != [] {
      ClosersFinish(m');
    }
  }

  /** One way to finish from each mode: first leave the value, key or string at hand, then close. */
  function Finish(m: Machine): seq<string> {
    if m.stack == [] then
      match m.mode
      case Value => ["{", "}"]
      case InString => ["\"", ",", "{", "}"]
      case _ => [",", "{", "}"]
    else
      (match m.mode
       case Value => ["{", "}"]
       case Colon => [":", "{", "}"]
       case InString => if m.keyRole then ["\"", ":", "{", "}"] else ["\""]
       case _ => [])
      + Closers(m.stack)
  }

  /** An empty object completes a document of its own and ends a value inside one. */
  lemma {:induction false} EmptyObjectEndsValue(m: Machine)
    requires !m.completed && m.mode == Value
    ensures OfferedRun(m, ["{", "}"])
    ensures m.stack == [] ==> Feed(m, ["{", "}"]).completed
    ensures m.stack != [] ==> Feed(m, ["{", "}"]) == m.(mode := AfterValue)
  {
    PunctuationIsApart("{");
    PunctuationIsApart("}");
    RunOne(m, "{");
    var k := m.(stack := m.stack + [Curly], mode := Key);
    assert k.stack[..|k.stack| - 1] == m.stack;
    RunOne(k, "}");
    RunConcat(m, ["{"], ["}"]);
    assert ["{"] + ["}"] == ["{", "}"];
  }

  lemma {:induction false} CommaThenEmptyObject(m: Machine)
    requires !m.completed && (m.mode == AfterValue || m.mode == InNumber) && m.stack == []
    ensures OfferedRun(m, [",", "{", "}"]) && Feed(m, [",", "{", "}"]).completed
  {
    PunctuationIsApart(",");
    RunOne(m, ",");
    EmptyObjectEndsValue(m.(mode := Value));
    RunConcat(m, [","], ["{", "}"]);
    assert [","] + ["{", "}"] == [",", "{", "}"];
  }

  lemma {:induction false} FinishEmptyStack(m: Machine)
    requires WellPlaced(m) && !m.completed && m.stack == []
    ensures OfferedRun(m, Finish(m)) && Feed(m, Finish(m)).completed
  {
    if m.mode == Value {
      EmptyObjectEndsValue(m);
    } else if m.mode == InString {
      PunctuationIsApart("\"");
      RunOne(m, "\"");
      CommaThenEmptyObject(m.(mode := AfterValue));
      RunConcat(m, ["\""], [",", "{", "}"]);
      assert ["\""] + [",", "{", "}"] == ["\"", ",", "{", "}"];
    } else {
      CommaThenEmptyObject(m);
    }
  }

  lemma {:induction false} ColonAndValue(m: Machine)
    requires !m.completed && m.mode == Colon && m.stack != []
    ensures OfferedRun(m, [":", "{", "}"]) && Feed(m, [":", "{", "}"]) == m.(mode := AfterValue)
  {
    PunctuationIsApart(":");
    RunOne(m, ":");
    EmptyObjectEndsValue(m.(mode := Value));
    RunConcat(m, [":"], ["{", "}"]);
    assert [":"] + ["{", "}"] == [":", "{", "}"];
  }

  lemma {:induction false} QuoteColonAndValue(m: Machine)
    requires !m.completed && m.mode == InString && m.keyRole && m.stack != []
    ensures OfferedRun(m, ["\"", ":", "{", "}"]) && Feed(m, ["\"", ":", "{", "}"]) == m.(mode := AfterValue)
  {
    PunctuationIsApart("\"");
    RunOne(m, "\"");
    ColonAndValue(m.(mode := Colon));
    RunConcat(m, ["\""], [":", "{", "}"]);
    assert ["\""] + [":", "{", "}"] == ["\"", ":", "{", "}"];
  }

  lemma {:induction false} ThenClose(m: Machine, pre: seq<string>)
    requires !m.completed && m.stack != []
    requires OfferedRun(m, pre) && Feed(m, pre) == m.(mode := AfterValue)
    ensures OfferedRun(m, pre + Closers(m.stack)) && Feed(m, pre + Closers(m.stack)).completed
  {
    ClosersFinish(m.(mode := AfterValue));
    RunConcat(m, pre, Closers(m.stack));
  }

  lemma {:induction false} FinishOpenStack(m: Machine)
    requires WellPlaced(m) && !m.completed && m.stack != []
    ensures OfferedRun(m, Finish(m)) && Feed(m, Finish(m)).completed
  {
    if m.mode == Value {
      EmptyObjectEndsValue(m);
      ThenClose(m, ["{", "}"]);
    } else if m.mode == Colon {
      ColonAndValue(m);
      ThenClose(m, [":", "{", "}"]);
    } else if m.mode == InString && m.keyRole {
      QuoteColonAndValue(m);
      ThenClose(m, ["\"", ":", "{", "}"]);
    } else if m.mode == InString {
      PunctuationIsApart("\"");
      RunOne(m, "\"");
      ThenClose(m, ["\""]);
    } else {
      ClosersFinish(m);
      assert Finish(m) == Closers(m.stack);
    }
  }

  /** No dead ends: every unfinished reachable state is completed by at most four texts more than
      its stack is deep, each of them offered when its turn comes. */
  lemma {:induction false} UnfinishedCanFinish(rs: seq<string>)
    requires OfferedRun(START, rs) && !Feed(START, rs).completed
    ensures var m := Feed(START, rs);
      && OfferedRun(m, Finish(m)) && Feed(m, Finish(m)).completed
      && |Finish(m)| <= |m.stack| + 4
  {
    var m := Feed(START, rs);
    StackIsOpenBrackets(rs);
    ClosersLength(m.stack);
    if m.stack == [] {
      FinishEmptyStack(m);
    } else {
      FinishOpenStack(m);
    }
  }
}

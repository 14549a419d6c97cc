/** The language of the JSON token machine (tools/chat_v6.py, `JSONSyntaxStateMachine`).

    Documents are trees that keep the white space between tokens.  The grammar is that of sections
    2 to 5 of RFC 8259 on tokens, with the machine's own deviations: an object may have a comma
    before its closing brace, an array is never empty, and scalars each followed by a comma may
    precede the root.
 */
module JsonGrammar {
  import opened Basics
  import opened JsonMachine

  type Texts = seq<string>

  datatype KeyPart = KeyPart(body: Texts, ws: Texts, wsColon: Texts)

  /** `ws` is the white space after the tree. */
  datatype Tree =
    | Str(body: Texts, ws: Texts)
    | Lit(text: string, ws: Texts)
    | Num(pieces: Texts, ws: Texts)
    | Obj(ws0: Texts, members: Members, ws: Texts)
    | Arr(ws0: Texts, items: Items, ws: Texts)

  datatype Members =
    | NoMember
    | LastMember(key: KeyPart, value: Tree)
    | Member(key: KeyPart, value: Tree, wsComma: Texts, rest: Members)

  datatype Items =
    | LastItem(value: Tree)
    | Item(value: Tree, wsComma: Texts, rest: Items)

  /** A scalar at top level and the white space after its comma. */
  datatype Lead = Lead(value: Tree, wsComma: Texts)

  datatype Document = Document(ws: Texts, lead: seq<Lead>, root: Tree)

  // ----- printing -----------------------------------------------------------------------------

  function KeyText(k: KeyPart): Texts {
    ["\""] + k.body + ["\""] + k.ws + [":"] + k.wsColon
  }

  function Print(t: Tree): Texts {
    match t
    case Str(body, ws) => ["\""] + body + ["\""] + ws
    case Lit(text, ws) => [text] + ws
    case Num(pieces, ws) => pieces + ws
    case Obj(ws0, ms, ws) => ["{"] + ws0 + PrintMembers(ms) + ["}"] + ws
    case Arr(ws0, xs, ws) => ["["] + ws0 + PrintItems(xs) + ["]"] + ws
  }

  function PrintMembers(ms: Members): Texts {
    match ms
    case NoMember => []
    case LastMember(k, v) => KeyText(k) + Print(v)
    case Member(k, v, ws, rest) => KeyText(k) + Print(v) + ([","] + ws) + PrintMembers(rest)
  }

  function PrintItems(xs: Items): Texts {
    match xs
    case LastItem(v) => Print(v)
    case Item(v, ws, rest) => Print(v) + ([","] + ws) + PrintItems(rest)
  }

  function LeadText(lead: seq<Lead>): Texts {
    if lead == [] then [] else Print(lead[0].value) + ([","] + lead[0].wsComma) + LeadText(lead[1..])
  }

  function Text(d: Document): Texts {
    d.ws + LeadText(d.lead) + Print(d.root)
  }

  // ----- well-formed trees --------------------------------------------------------------------

  predicate Spaces(ws: Texts) {
    forall i :: 0 <= i < |ws| ==> ClassOf(ws[i]) == Space
  }

  predicate NoQuote(body: Texts) {
    forall i :: 0 <= i < |body| ==> body[i] != "\""
  }

  predicate GoodKey(k: KeyPart) {
    NoQuote(k.body) && Spaces(k.ws) && Spaces(k.wsColon)
  }

  predicate Good(t: Tree) {
    && Spaces(t.ws)
    && match t
       case Str(body, _) => NoQuote(body)
       case Lit(text, _) => ClassOf(text) == Literal
       case Num(pieces, _) => pieces != [] && forall i :: 0 <= i < |pieces| ==> ClassOf(pieces[i]) == Number
       case Obj(ws0, ms, _) => Spaces(ws0) && GoodMembers(ms)
       case Arr(ws0, xs, _) => Spaces(ws0) && GoodItems(xs)
  }

  predicate GoodMembers(ms: Members) {
    match ms
    case NoMember => true
    case LastMember(k, v) => GoodKey(k) && Good(v)
    case Member(k, v, ws, rest) => GoodKey(k) && Good(v) && Spaces(ws) && GoodMembers(rest)
  }

  predicate GoodItems(xs: Items) {
    match xs
    case LastItem(v) => Good(v)
    case Item(v, ws, rest) => Good(v) && Spaces(ws) && GoodItems(rest)
  }

  predicate Scalar(t: Tree) {
    t.Str? || t.Lit? || t.Num?
  }

  predicate GoodLead(l: Lead) {
    Scalar(l.value) && Good(l.value) && Spaces(l.wsComma)
  }

  predicate GoodDocument(d: Document) {
    && Spaces(d.ws)
    && (forall i :: 0 <= i < |d.lead| ==> GoodLead(d.lead[i]))
    && !Scalar(d.root) && Good(d.root) && d.root.ws == []
  }

  // ----- every document is accepted -----------------------------------------------------------

  /** The run over `rs` from `m` takes only offered texts, keeps the stack and ends in `modes`. */
  ghost predicate Passes(m: Machine, rs: Texts, modes: set<Mode>) {
    && OfferedRun(m, rs)
    && var m' := Feed(m, rs); !m'.completed && m'.stack == m.stack && m'.mode in modes
  }

  const ENDED := {AfterValue, InNumber}

  lemma {:induction false} SpacesPass(m: Machine, ws: Texts)
    requires !m.completed && Spaces(ws)
    ensures OfferedRun(m, ws)
    ensures Feed(m, ws) == if ws != [] && m.mode == InNumber then m.(mode := AfterValue) else m
    decreases |ws|
  {
    if ws != [] {
      assert ClassOf(ws[0]) == Space;
      SpacesPass(Step(m, ws[0]), ws[1..]);
    }
  }

  /** One text and the white space after it. */
  lemma {:induction false} TokenPasses(m: Machine, r: string, ws: Texts)
    requires Offers(m, r) && !Step(m, r).completed && Spaces(ws)
    ensures OfferedRun(m, [r] + ws)
    ensures Feed(m, [r] + ws)
         == if ws != [] && Step(m, r).mode == InNumber then Step(m, r).(mode := AfterValue) else Step(m, r)
  {
    RunOne(m, r);
    SpacesPass(Step(m, r), ws);
    RunConcat(m, [r], ws);
  }

  lemma {:induction false} BodyPasses(m: Machine, body: Texts)
    requires !m.completed && m.mode == InString && NoQuote(body)
    ensures OfferedRun(m, body) && Feed(m, body) == m
    decreases |body|
  {
    if body != [] {
      BodyPasses(m, body[1..]);
    }
  }

  /** A quoted string and the white space after it, for keys and values alike. */
  lemma {:induction false} StringPasses(m: Machine, body: Texts, ws: Texts)
    requires !m.completed && (m.mode == Value || m.mode == Key) && NoQuote(body) && Spaces(ws)
    ensures OfferedRun(m, ["\""] + body + ["\""] + ws)
    ensures Feed(m, ["\""] + body + ["\""] + ws)
         == m.(keyRole := m.mode == Key, mode := if m.mode == Key then Colon else AfterValue)
  {
    PunctuationIsApart("\"");
    var s := m.(keyRole := m.mode == Key, mode := InString);
    RunOne(m, "\"");
    BodyPasses(s, body);
    RunConcat(m, ["\""], body);
    TokenPasses(s, "\"", ws);
    RunConcat(m, ["\""] + body, ["\""] + ws);
    Assoc(["\""] + body, ["\""], ws);
  }

  lemma {:induction false} KeyPasses(m: Machine, k: KeyPart)
    requires !m.completed && m.mode == Key && GoodKey(k)
    ensures OfferedRun(m, KeyText(k))
    ensures Feed(m, KeyText(k)) == m.(keyRole := true, mode := Value)
  {
    StringPasses(m, k.body, k.ws);
    var c := m.(keyRole := true, mode := Colon);
    PunctuationIsApart(":");
    TokenPasses(c, ":", k.wsColon);
    var head := ["\""] + k.body + ["\""] + k.ws;
    RunConcat(m, head, [":"] + k.wsColon);
    Assoc(head, [":"], k.wsColon);
  }

  lemma {:induction false} PiecesPass(m: Machine, pieces: Texts)
    requires !m.completed && m.mode == InNumber
    requires forall i :: 0 <= i < |pieces| ==> ClassOf(pieces[i]) == Number
    ensures OfferedRun(m, pieces) && Feed(m, pieces) == m
    decreases |pieces|
  {
    if pieces != [] {
      assert ClassOf(pieces[0]) == Number;
      assert !IsSpace(pieces[0]);
      PiecesPass(m, pieces[1..]);
    }
  }

  lemma {:induction false} ScalarPasses(m: Machine, t: Tree)
    requires !m.completed && m.mode == Value && Scalar(t) && Good(t)
    ensures Passes(m, Print(t), ENDED)
  {
    match t
    case Str(body, ws) => StringPasses(m, body, ws);
    case Lit(text, ws) => TokenPasses(m, text, ws);
    case Num(pieces, ws) =>
      assert ClassOf(pieces[0]) == Number;
      var n := m.(mode := InNumber);
      assert Step(m, pieces[0]) == n;
      PiecesPass(n, pieces[1..]);
      SpacesPass(n, ws);
      RunConcat(m, pieces, ws);
  }

  /** A comma after a value and the white space after it. */
  lemma {:induction false} CommaPasses(m: Machine, ws: Texts)
    requires !m.completed && m.mode in ENDED && Spaces(ws)
    ensures Passes(m, [","] + ws, {if m.stack != [] && Top(m) == Curly then Key else Value})
  {
    PunctuationIsApart(",");
    TokenPasses(m, ",", ws);
  }

  lemma {:induction false} OpenPasses(m: Machine, b: Bracket, ws: Texts)
    requires !m.completed && m.mode == Value && Spaces(ws)
    ensures var open := if b == Curly then "{" else "[";
      && OfferedRun(m, [open] + ws)
      && Feed(m, [open] + ws) == m.(stack := m.stack + [b], mode := if b == Curly then Key else Value)
  {
    PunctuationIsApart("{");
    PunctuationIsApart("[");
    TokenPasses(m, if b == Curly then "{" else "[", ws);
  }

  /** What closing the top bracket leads to. */
  lemma {:induction false} ClosePasses(m: Machine, b: Bracket)
    requires !m.completed && m.stack != [] && Top(m) == b && (m.mode in ENDED || (m.mode == Key && b == Curly))
    ensures OfferedRun(m, [Closer(b)])
    ensures var m' := Feed(m, [Closer(b)]);
      && m'.stack == m.stack[..|m.stack| - 1]
      && m'.completed == (m'.stack == []) && m'.mode == if m'.stack == [] then Done else AfterValue
  {
    PunctuationIsApart(Closer(b));
    RunOne(m, Closer(b));
  }

  /** A bracketed body: opened, passed over, closed. */
  lemma {:induction false} BracketedPasses(m: Machine, b: Bracket, ws0: Texts, inner: Texts, modes: set<Mode>)
    requires !m.completed && m.mode == Value && Spaces(ws0)
    requires modes <= if b == Curly then {Key, AfterValue, InNumber} else {AfterValue, InNumber}
    requires Passes(m.(stack := m.stack + [b], mode := if b == Curly then Key else Value), inner, modes)
    ensures var all := [if b == Curly then "{" else "["] + ws0 + inner + [Closer(b)];
      && OfferedRun(m, all)
      && var m' := Feed(m, all);
         m'.stack == m.stack && m'.completed == (m.stack == []) && m'.mode == if m.stack == [] then Done else AfterValue
  {
    var open := [if b == Curly then "{" else "["] + ws0;
    OpenPasses(m, b, ws0);
    RunConcat(m, open, inner);
    var m2 := Feed(m, open + inner);
    assert m2.stack == m.stack + [b];
    assert m2.stack[..|m2.stack| - 1] == m.stack;
    ClosePasses(m2, b);
    RunConcat(m, open + inner, [Closer(b)]);
  }

  /** Running a nested value restores the stack it started with; a root value completes. */
  lemma {:induction false} TreePasses(m: Machine, t: Tree)
    requires !m.completed && m.mode == Value && Good(t)
    requires m.stack == [] && !Scalar(t) ==> t.ws == []
    ensures OfferedRun(m, Print(t))
    ensures Feed(m, Print(t)).stack == m.stack
    ensures Feed(m, Print(t)).completed <==> m.stack == [] && !Scalar(t)
    ensures m.stack != [] || Scalar(t) ==> Passes(m, Print(t), ENDED)
    decreases t
  {
    match t {
      case Obj(ws0, ms, ws) =>
        MembersPass(m.(stack := m.stack + [Curly], mode := Key), ms);
        BracketedPasses(m, Curly, ws0, PrintMembers(ms), {Key, AfterValue, InNumber});
        TrailingSpaces(m, ["{"] + ws0 + PrintMembers(ms) + ["}"], ws);
      case Arr(ws0, xs, ws) =>
        ItemsPass(m.(stack := m.stack + [Square]), xs);
        BracketedPasses(m, Square, ws0, PrintItems(xs), ENDED);
        TrailingSpaces(m, ["["] + ws0 + PrintItems(xs) + ["]"], ws);
      case _ => ScalarPasses(m, t);
    }
  }

  lemma {:induction false} TrailingSpaces(m: Machine, rs: Texts, ws: Texts)
    requires OfferedRun(m, rs) && Spaces(ws) && (Feed(m, rs).completed ==> ws == [])
    requires !Feed(m, rs).completed ==> Feed(m, rs).mode == AfterValue
    ensures OfferedRun(m, rs + ws) && Feed(m, rs + ws) == Feed(m, rs)
  {
    if ws == [] {
      assert rs + ws == rs;
    } else {
      SpacesPass(Feed(m, rs), ws);
      RunConcat(m, rs, ws);
    }
  }

  lemma {:induction false} KeyThenValue(m: Machine, k: KeyPart, v: Texts)
    requires !m.completed && m.mode == Key && GoodKey(k)
    requires Passes(m.(keyRole := true, mode := Value), v, ENDED)
    ensures Passes(m, KeyText(k) + v, ENDED)
  {
    KeyPasses(m, k);
    RunConcat(m, KeyText(k), v);
  }

  /** A member and a comma, before more members. */
  lemma {:induction false} MemberThenComma(m: Machine, member: Texts, ws: Texts) returns (next: Machine)
    requires !m.completed && m.stack != [] && Top(m) == Curly && Spaces(ws) && Passes(m, member, ENDED)
    ensures OfferedRun(m, member + ([","] + ws)) && next == Feed(m, member + ([","] + ws))
    ensures !next.completed && next.mode == Key && next.stack == m.stack
  {
    CommaPasses(Feed(m, member), ws);
    RunConcat(m, member, [","] + ws);
    next := Feed(m, member + ([","] + ws));
  }

  lemma {:induction false} MembersPass(m: Machine, ms: Members)
    requires !m.completed && m.mode == Key && m.stack != [] && Top(m) == Curly && GoodMembers(ms)
    ensures Passes(m, PrintMembers(ms), {Key, AfterValue, InNumber})
    decreases ms
  {
    match ms {
      case NoMember =>
      case LastMember(k, v) =>
        TreePasses(m.(keyRole := true, mode := Value), v);
        KeyThenValue(m, k, Print(v));
      case Member(k, v, ws, rest) =>
        TreePasses(m.(keyRole := true, mode := Value), v);
        KeyThenValue(m, k, Print(v));
        var next := MemberThenComma(m, KeyText(k) + Print(v), ws);
        MembersPass(next, rest);
        RunConcat(m, KeyText(k) + Print(v) + ([","] + ws), PrintMembers(rest));
    }
  }

  lemma {:induction false} ItemsPass(m: Machine, xs: Items)
    requires !m.completed && m.mode == Value && m.stack != [] && Top(m) == Square && GoodItems(xs)
    ensures Passes(m, PrintItems(xs), ENDED)
    decreases xs
  {
    match xs {
      case LastItem(v) =>
        TreePasses(m, v);
      case Item(v, ws, rest) =>
        TreePasses(m, v);
        var m1 := Feed(m, Print(v));
        CommaPasses(m1, ws);
        RunConcat(m, Print(v), [","] + ws);
        ItemsPass(Feed(m1, [","] + ws), rest);
        RunConcat(m, Print(v) + ([","] + ws), PrintItems(rest));
    }
  }

  lemma {:induction false} LeadPasses(m: Machine, lead: seq<Lead>)
    requires !m.completed && m.mode == Value && m.stack == []
    requires forall i :: 0 <= i < |lead| ==> GoodLead(lead[i])
    ensures Passes(m, LeadText(lead), {Value})
    decreases |lead|
  {
    if lead != [] {
      assert GoodLead(lead[0]);
      ScalarPasses(m, lead[0].value);
      var m1 := Feed(m, Print(lead[0].value));
      CommaPasses(m1, lead[0].wsComma);
      RunConcat(m, Print(lead[0].value), [","] + lead[0].wsComma);
      LeadPasses(Feed(m1, [","] + lead[0].wsComma), lead[1..]);
      RunConcat(m, Print(lead[0].value) + ([","] + lead[0].wsComma), LeadText(lead[1..]));
    }
  }

  /** Every document is a run over offered texts that completes the machine with its last text. */
  lemma {:induction false} DocumentsAreAccepted(d: Document)
    requires GoodDocument(d)
    ensures OfferedRun(START, Text(d)) && Feed(START, Text(d)).completed
  {
    SpacesPass(START, d.ws);
    LeadPasses(START, d.lead);
    RunConcat(START, d.ws, LeadText(d.lead));
    TreePasses(Feed(START, d.ws + LeadText(d.lead)), d.root);
    RunConcat(START, d.ws + LeadText(d.lead), Print(d.root));
  }
}

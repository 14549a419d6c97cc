/** The converse of `JsonGrammar.DocumentsAreAccepted`: whatever the JSON token machine
    (tools/chat_v6.py, `JSONSyntaxStateMachine`) completes is the print of a document.

    A partly read document is kept as a position in an unfinished tree.  Each offered text extends
    the position, its print grows by exactly that text, and the machine's mode and stack can be
    read off it.
 */
module JsonLanguage {
  import opened Basics
  import opened JsonMachine
  import opened JsonGrammar

  datatype DoneItem = DoneItem(value: Tree, wsComma: Texts)
  datatype DoneMember = DoneMember(key: KeyPart, value: Tree, wsComma: Texts)

  /** Everything around a value that is still to be read. */
  datatype Around =
    | AtTop(ws: Texts, lead: seq<Lead>)
    | InArray(outer: Around, ws0: Texts, items: seq<DoneItem>)
    | InObject(outer: Around, ws0: Texts, members: seq<DoneMember>, key: KeyPart)

  datatype Position =
    | WantValue(around: Around)
    | WantKey(around: Around, ws0: Texts, members: seq<DoneMember>)
    | ReadingKey(around: Around, ws0: Texts, members: seq<DoneMember>, body: Texts)
    | WantColon(around: Around, ws0: Texts, members: seq<DoneMember>, body: Texts, ws: Texts)
    | ReadingString(around: Around, body: Texts)
    | ReadingNumber(around: Around, pieces: Texts)
    | HaveValue(around: Around, value: Tree)
    | Complete(document: Document)

  // ----- what has been read so far --------------------------------------------------------------

  function ItemsText(xs: seq<DoneItem>): Texts {
    if xs == [] then [] else Print(xs[0].value) + ([","] + xs[0].wsComma) + ItemsText(xs[1..])
  }

  function MembersText(ms: seq<DoneMember>): Texts {
    if ms == [] then []
    else KeyText(ms[0].key) + Print(ms[0].value) + ([","] + ms[0].wsComma) + MembersText(ms[1..])
  }

  function AroundText(a: Around): Texts {
    match a
    case AtTop(ws, lead) => ws + LeadText(lead)
    case InArray(outer, ws0, items) => AroundText(outer) + (["["] + ws0 + ItemsText(items))
    case InObject(outer, ws0, ms, key) => AroundText(outer) + (["{"] + ws0 + MembersText(ms)) + KeyText(key)
  }

  function ObjectText(a: Around, ws0: Texts, ms: seq<DoneMember>): Texts {
    AroundText(a) + (["{"] + ws0 + MembersText(ms))
  }

  function ReadText(z: Position): Texts {
    match z
    case WantValue(a) => AroundText(a)
    case WantKey(a, ws0, ms) => ObjectText(a, ws0, ms)
    case ReadingKey(a, ws0, ms, body) => ObjectText(a, ws0, ms) + (["\""] + body)
    case WantColon(a, ws0, ms, body, ws) => ObjectText(a, ws0, ms) + (["\""] + body + ["\""] + ws)
    case ReadingString(a, body) => AroundText(a) + (["\""] + body)
    case ReadingNumber(a, pieces) => AroundText(a) + pieces
    case HaveValue(a, v) => AroundText(a) + Print(v)
    case Complete(d) => Text(d)
  }

  // ----- the machine's view ---------------------------------------------------------------------

  function StackOf(a: Around): seq<Bracket> {
    match a
    case AtTop(_, _) => []
    case InArray(outer, _, _) => StackOf(outer) + [Square]
    case InObject(outer, _, _, _) => StackOf(outer) + [Curly]
  }

  predicate Views(m: Machine, z: Position) {
    && m.completed == z.Complete?
    && match z
       case WantValue(a) => m.mode == Value && m.stack == StackOf(a)
       case WantKey(a, _, _) => m.mode == Key && m.stack == StackOf(a) + [Curly]
       case ReadingKey(a, _, _, _) => m.mode == InString && m.keyRole && m.stack == StackOf(a) + [Curly]
       case WantColon(a, _, _, _, _) => m.mode == Colon && m.stack == StackOf(a) + [Curly]
       case ReadingString(a, _) => m.mode == InString && !m.keyRole && m.stack == StackOf(a)
       case ReadingNumber(a, _) => m.mode == InNumber && m.stack == StackOf(a)
       case HaveValue(a, _) => m.mode == AfterValue && m.stack == StackOf(a)
       case Complete(_) => true
  }

  // ----- well-formed positions --------------------------------------------------------------------

  predicate GoodItem(x: DoneItem) {
    Good(x.value) && Spaces(x.wsComma)
  }

  predicate GoodMember(x: DoneMember) {
    GoodKey(x.key) && Good(x.value) && Spaces(x.wsComma)
  }

  predicate GoodDone(ms: seq<DoneMember>) {
    forall i :: 0 <= i < |ms| ==> GoodMember(ms[i])
  }

  predicate GoodAround(a: Around) {
    match a
    case AtTop(ws, lead) => Spaces(ws) && forall i :: 0 <= i < |lead| ==> GoodLead(lead[i])
    case InArray(outer, ws0, items) =>
      GoodAround(outer) && Spaces(ws0) && forall i :: 0 <= i < |items| ==> GoodItem(items[i])
    case InObject(outer, ws0, ms, key) => GoodAround(outer) && Spaces(ws0) && GoodDone(ms) && GoodKey(key)
  }

  predicate GoodPosition(z: Position) {
    match z
    case WantValue(a) => GoodAround(a)
    case WantKey(a, ws0, ms) => GoodAround(a) && Spaces(ws0) && GoodDone(ms)
    case ReadingKey(a, ws0, ms, body) => GoodAround(a) && Spaces(ws0) && GoodDone(ms) && NoQuote(body)
    case WantColon(a, ws0, ms, body, ws) => GoodAround(a) && Spaces(ws0) && GoodDone(ms) && NoQuote(body) && Spaces(ws)
    case ReadingString(a, body) => GoodAround(a) && NoQuote(body)
    case ReadingNumber(a, pieces) =>
      GoodAround(a) && pieces != [] && forall i :: 0 <= i < |pieces| ==> ClassOf(pieces[i]) == Number
    case HaveValue(a, v) => GoodAround(a) && Good(v) && (a.AtTop? ==> Scalar(v))
    case Complete(d) => GoodDocument(d)
  }

  // ----- moving the position ----------------------------------------------------------------------

  function Items(xs: seq<DoneItem>, last: Tree): JsonGrammar.Items {
    if xs == [] then LastItem(last) else Item(xs[0].value, xs[0].wsComma, Items(xs[1..], last))
  }

  /** The finished members, the last one closed by `end`. */
  function Members(ms: seq<DoneMember>, end: JsonGrammar.Members): JsonGrammar.Members {
    if ms == [] then end else Member(ms[0].key, ms[0].value, ms[0].wsComma, Members(ms[1..], end))
  }

  function AddSpace(a: Around, r: string): Around {
    match a
    case AtTop(ws, lead) =>
      if lead == [] then AtTop(ws + [r], lead)
      else
        var n := |lead| - 1;
        AtTop(ws, lead[..n] + [Lead(lead[n].value, lead[n].wsComma + [r])])
    case InArray(outer, ws0, items) =>
      if items == [] then InArray(outer, ws0 + [r], items)
      else
        var n := |items| - 1;
        InArray(outer, ws0, items[..n] + [DoneItem(items[n].value, items[n].wsComma + [r])])
    case InObject(outer, ws0, ms, key) =>
      InObject(outer, ws0, ms, key.(wsColon := key.wsColon + [r]))
  }

  function AddKeySpace(a: Around, ws0: Texts, ms: seq<DoneMember>, r: string): Position {
    if ms == [] then WantKey(a, ws0 + [r], ms)
    else
      var n := |ms| - 1;
      WantKey(a, ws0, ms[..n] + [DoneMember(ms[n].key, ms[n].value, ms[n].wsComma + [r])])
  }

  /** A composite has just been closed. */
  function Closed(a: Around, t: Tree): Position {
    if a.AtTop? then Complete(Document(a.ws, a.lead, t)) else HaveValue(a, t)
  }

  /** A comma or a closer after a value. */
  function AfterTree(a: Around, v: Tree, r: string): Position {
    match a
    case AtTop(ws, lead) => WantValue(AtTop(ws, lead + [Lead(v, [])]))
    case InArray(outer, ws0, items) =>
      if r == "," then WantValue(InArray(outer, ws0, items + [DoneItem(v, [])]))
      else Closed(outer, Arr(ws0, Items(items, v), []))
    case InObject(outer, ws0, ms, key) =>
      if r == "," then WantKey(outer, ws0, ms + [DoneMember(key, v, [])])
      else Closed(outer, Obj(ws0, Members(ms, LastMember(key, v)), []))
  }

  function Next(z: Position, r: string): Position {
    match z
    case WantValue(a) =>
      if IsSpace(r) then WantValue(AddSpace(a, r))
      else if r == "{" then WantKey(a, [], [])
      else if r == "[" then WantValue(InArray(a, [], []))
      else if r == "\"" then ReadingString(a, [])
      else if IsLiteral(r) then HaveValue(a, Lit(r, []))
      else ReadingNumber(a, [r])
    case WantKey(a, ws0, ms) =>
      if IsSpace(r) then AddKeySpace(a, ws0, ms, r)
      else if r == "\"" then ReadingKey(a, ws0, ms, [])
      else Closed(a, Obj(ws0, Members(ms, NoMember), []))
    case ReadingKey(a, ws0, ms, body) =>
      if r == "\"" then WantColon(a, ws0, ms, body, []) else ReadingKey(a, ws0, ms, body + [r])
    case WantColon(a, ws0, ms, body, ws) =>
      if IsSpace(r) then WantColon(a, ws0, ms, body, ws + [r])
      else WantValue(InObject(a, ws0, ms, KeyPart(body, ws, [])))
    case ReadingString(a, body) =>
      if r == "\"" then HaveValue(a, Str(body, [])) else ReadingString(a, body + [r])
    case ReadingNumber(a, pieces) =>
      if IsSpace(r) then HaveValue(a, Num(pieces, [r]))
      else if IsNumberPiece(r) then ReadingNumber(a, pieces + [r])
      else AfterTree(a, Num(pieces, []), r)
    case HaveValue(a, v) =>
      if IsSpace(r) then HaveValue(a, v.(ws := v.ws + [r])) else AfterTree(a, v, r)
    case Complete(_) => z
  }

  // ----- one text at a time -----------------------------------------------------------------------

  lemma {:induction false} SpaceClass(r: string)
    ensures IsSpace(r) <==> ClassOf(r) == Space
    ensures IsSpace(r) ==> !IsPunctuation(r) && r != "\""
  {
    if IsPunctuation(r) || r == "\"" {
      PunctuationIsApart(r);
    }
  }

  lemma {:induction false} CloseIsViewed(m: Machine, a: Around, b: Bracket, t: Tree)
    requires !m.completed && m.stack == StackOf(a) + [b]
    ensures Views(Close(m), Closed(a, t))
  {
    assert m.stack[..|m.stack| - 1] == StackOf(a);
  }

  lemma {:induction false} AfterTreeIsViewed(m: Machine, a: Around, v: Tree, r: string)
    requires !m.completed && m.mode == AfterValue && m.stack == StackOf(a)
    requires r == "," || (m.stack != [] && r == Closer(Top(m)))
    ensures Views(StepAfterValue(m, r), AfterTree(a, v, r))
  {
    if r != "," {
      match a
      case InArray(outer, ws0, items) => CloseIsViewed(m, outer, Square, Arr(ws0, Items(items, v), []));
      case InObject(outer, ws0, ms, key) =>
        CloseIsViewed(m, outer, Curly, Obj(ws0, Members(ms, LastMember(key, v)), []));
    }
  }

  /** The machine's step and the move of the position agree. */
  lemma {:induction false} NextIsViewed(m: Machine, z: Position, r: string)
    requires Views(m, z) && Offers(m, r)
    ensures Views(Step(m, r), Next(z, r))
  {
    SpaceClass(r);
    if IsPunctuation(r) || r == "\"" {
      PunctuationIsApart(r);
    }
    if !IsSpace(r) {
      match z
      case WantKey(a, ws0, ms) =>
        if r != "\"" {
          CloseIsViewed(m, a, Curly, Obj(ws0, Members(ms, NoMember), []));
        }
      case ReadingNumber(a, pieces) =>
        if !IsNumberPiece(r) {
          AfterTreeIsViewed(m.(mode := AfterValue), a, Num(pieces, []), r);
        }
      case HaveValue(a, v) => AfterTreeIsViewed(m, a, v, r);
      case _ =>
    }
  }

  lemma {:induction false} GoodItemsOf(xs: seq<DoneItem>, last: Tree)
    requires Good(last) && forall i :: 0 <= i < |xs| ==> GoodItem(xs[i])
    ensures GoodItems(Items(xs, last))
    ensures PrintItems(Items(xs, last)) == ItemsText(xs) + Print(last)
  {
    if xs == [] {
      assert ItemsText(xs) + Print(last) == Print(last);
    } else {
      assert GoodItem(xs[0]);
      GoodItemsOf(xs[1..], last);
      Assoc(Print(xs[0].value) + ([","] + xs[0].wsComma), ItemsText(xs[1..]), Print(last));
    }
  }

  lemma {:induction false} GoodMembersOf(ms: seq<DoneMember>, end: JsonGrammar.Members)
    requires GoodMembers(end) && GoodDone(ms)
    ensures GoodMembers(Members(ms, end))
    ensures PrintMembers(Members(ms, end)) == MembersText(ms) + PrintMembers(end)
  {
    if ms == [] {
      assert MembersText(ms) + PrintMembers(end) == PrintMembers(end);
    } else {
      assert GoodMember(ms[0]);
      GoodMembersOf(ms[1..], end);
      Assoc(KeyText(ms[0].key) + Print(ms[0].value) + ([","] + ms[0].wsComma), MembersText(ms[1..]), PrintMembers(end));
    }
  }

  lemma {:induction false} LeadTextAdd(lead: seq<Lead>, x: Lead)
    ensures LeadText(lead + [x]) == LeadText(lead) + (Print(x.value) + ([","] + x.wsComma))
  {
    if lead == [] {
      assert lead + [x] == [x] && [x][1..] == [];
    } else {
      assert (lead + [x])[1..] == lead[1..] + [x];
      LeadTextAdd(lead[1..], x);
      Assoc(Print(lead[0].value) + ([","] + lead[0].wsComma), LeadText(lead[1..]), Print(x.value) + ([","] + x.wsComma));
    }
  }

  lemma {:induction false} ItemsTextAdd(xs: seq<DoneItem>, x: DoneItem)
    ensures ItemsText(xs + [x]) == ItemsText(xs) + (Print(x.value) + ([","] + x.wsComma))
  {
    if xs == [] {
      assert xs + [x] == [x] && [x][1..] == [];
    } else {
      assert (xs + [x])[1..] == xs[1..] + [x];
      ItemsTextAdd(xs[1..], x);
      Assoc(Print(xs[0].value) + ([","] + xs[0].wsComma), ItemsText(xs[1..]), Print(x.value) + ([","] + x.wsComma));
    }
  }

  lemma {:induction false} MembersTextAdd(ms: seq<DoneMember>, x: DoneMember)
    ensures MembersText(ms + [x]) == MembersText(ms) + (KeyText(x.key) + Print(x.value) + ([","] + x.wsComma))
  {
    if ms == [] {
      assert ms + [x] == [x] && [x][1..] == [];
    } else {
      assert (ms + [x])[1..] == ms[1..] + [x];
      MembersTextAdd(ms[1..], x);
      Assoc(KeyText(ms[0].key) + Print(ms[0].value) + ([","] + ms[0].wsComma), MembersText(ms[1..]),
            KeyText(x.key) + Print(x.value) + ([","] + x.wsComma));
    }
  }

  lemma {:induction false} SpacesAdd(ws: Texts, r: string)
    requires Spaces(ws) && ClassOf(r) == Space
    ensures Spaces(ws + [r])
  {
  }

  /** One more white space after the last comma. */
  lemma {:induction false} CommaSpace(front: Texts, head: Texts, ws: Texts, r: string)
    ensures front + (head + ([","] + (ws + [r]))) == front + (head + ([","] + ws)) + [r]
  {
    Assoc([","], ws, [r]);
    Assoc(head, [","] + ws, [r]);
    Assoc(front, head + ([","] + ws), [r]);
  }

  lemma {:induction false} LeadSpace(lead: seq<Lead>, r: string)
    requires lead != []
    ensures var n := |lead| - 1;
      LeadText(lead[..n] + [Lead(lead[n].value, lead[n].wsComma + [r])]) == LeadText(lead) + [r]
  {
    var n := |lead| - 1;
    assert lead == lead[..n] + [lead[n]];
    LeadTextAdd(lead[..n], lead[n]);
    LeadTextAdd(lead[..n], Lead(lead[n].value, lead[n].wsComma + [r]));
    CommaSpace(LeadText(lead[..n]), Print(lead[n].value), lead[n].wsComma, r);
  }

  lemma {:induction false} ItemSpace(xs: seq<DoneItem>, r: string)
    requires xs != []
    ensures var n := |xs| - 1;
      ItemsText(xs[..n] + [DoneItem(xs[n].value, xs[n].wsComma + [r])]) == ItemsText(xs) + [r]
  {
    var n := |xs| - 1;
    assert xs == xs[..n] + [xs[n]];
    ItemsTextAdd(xs[..n], xs[n]);
    ItemsTextAdd(xs[..n], DoneItem(xs[n].value, xs[n].wsComma + [r]));
    CommaSpace(ItemsText(xs[..n]), Print(xs[n].value), xs[n].wsComma, r);
  }

  lemma {:induction false} MemberSpaceAt(front: seq<DoneMember>, x: DoneMember, r: string)
    ensures MembersText(front + [DoneMember(x.key, x.value, x.wsComma + [r])]) == MembersText(front + [x]) + [r]
  {
    var head := KeyText(x.key) + Print(x.value);
    MembersTextAdd(front, x);
    MembersTextAdd(front, DoneMember(x.key, x.value, x.wsComma + [r]));
    CommaSpace(MembersText(front), head, x.wsComma, r);
  }

  lemma {:induction false} AddSpaceAtTop(ws: Texts, lead: seq<Lead>, r: string)
    requires GoodAround(AtTop(ws, lead)) && ClassOf(r) == Space
    ensures GoodAround(AddSpace(AtTop(ws, lead), r))
    ensures AroundText(AddSpace(AtTop(ws, lead), r)) == AroundText(AtTop(ws, lead)) + [r]
  {
    if lead == [] {
      SpacesAdd(ws, r);
      assert LeadText([]) == [];
    } else {
      assert GoodLead(lead[|lead| - 1]);
      SpacesAdd(lead[|lead| - 1].wsComma, r);
      LeadSpace(lead, r);
      Assoc(ws, LeadText(lead), [r]);
    }
  }

  lemma {:induction false} AddSpaceInArray(a: Around, ws0: Texts, xs: seq<DoneItem>, r: string)
    requires GoodAround(InArray(a, ws0, xs)) && ClassOf(r) == Space
    ensures GoodAround(AddSpace(InArray(a, ws0, xs), r))
    ensures AroundText(AddSpace(InArray(a, ws0, xs), r)) == AroundText(InArray(a, ws0, xs)) + [r]
  {
    var body := ["["] + ws0 + ItemsText(xs);
    Assoc(AroundText(a), body, [r]);
    if xs == [] {
      SpacesAdd(ws0, r);
      assert ItemsText([]) == [];
      assert ["["] + (ws0 + [r]) + [] == body + [r];
    } else {
      assert GoodItem(xs[|xs| - 1]);
      SpacesAdd(xs[|xs| - 1].wsComma, r);
      ItemSpace(xs, r);
      Assoc(["["] + ws0, ItemsText(xs), [r]);
    }
  }

  lemma {:induction false} AddSpaceReads(a: Around, r: string)
    requires GoodAround(a) && ClassOf(r) == Space
    ensures GoodAround(AddSpace(a, r))
    ensures AroundText(AddSpace(a, r)) == AroundText(a) + [r]
  {
    match a
    case AtTop(ws, lead) => AddSpaceAtTop(ws, lead, r);
    case InArray(outer, ws0, items) => AddSpaceInArray(outer, ws0, items, r);
    case InObject(outer, ws0, ms, key) =>
      SpacesAdd(key.wsColon, r);
      Assoc(["\""] + key.body + ["\""] + key.ws + [":"], key.wsColon, [r]);
      Assoc(AroundText(outer) + (["{"] + ws0 + MembersText(ms)), KeyText(key), [r]);
  }

  lemma {:induction false} AddKeySpaceReads(a: Around, ws0: Texts, ms: seq<DoneMember>, r: string)
    requires GoodAround(a) && Spaces(ws0) && GoodDone(ms) && ClassOf(r) == Space
    ensures GoodPosition(AddKeySpace(a, ws0, ms, r))
    ensures ReadText(AddKeySpace(a, ws0, ms, r)) == ObjectText(a, ws0, ms) + [r]
  {
    var body := ["{"] + ws0 + MembersText(ms);
    Assoc(AroundText(a), body, [r]);
    if ms == [] {
      SpacesAdd(ws0, r);
      assert MembersText([]) == [];
      assert ["{"] + (ws0 + [r]) + [] == body + [r];
    } else {
      var front, x := ms[..|ms| - 1], ms[|ms| - 1];
      assert GoodMember(x);
      SpacesAdd(x.wsComma, r);
      assert ms == front + [x];
      MemberSpaceAt(front, x, r);
      Assoc(["{"] + ws0, MembersText(ms), [r]);
    }
  }

  lemma {:induction false} ClosedReads(a: Around, t: Tree)
    requires GoodAround(a) && Good(t) && !Scalar(t) && t.ws == []
    ensures GoodPosition(Closed(a, t))
    ensures ReadText(Closed(a, t)) == AroundText(a) + Print(t)
  {
  }

  lemma {:induction false} CloseObjectReads(a: Around, ws0: Texts, ms: seq<DoneMember>, end: JsonGrammar.Members)
    requires GoodAround(a) && Spaces(ws0) && GoodDone(ms) && GoodMembers(end)
    ensures var z := Closed(a, Obj(ws0, Members(ms, end), []));
      GoodPosition(z) && ReadText(z) == ObjectText(a, ws0, ms) + PrintMembers(end) + ["}"]
  {
    var t := Obj(ws0, Members(ms, end), []);
    GoodMembersOf(ms, end);
    ClosedReads(a, t);
    var body := ["{"] + ws0 + MembersText(ms);
    Assoc(["{"] + ws0, MembersText(ms), PrintMembers(end));
    assert Print(t) == body + PrintMembers(end) + ["}"];
    Assoc(AroundText(a), body, PrintMembers(end));
    Assoc(AroundText(a), body + PrintMembers(end), ["}"]);
  }

  lemma {:induction false} CloseArrayReads(a: Around, ws0: Texts, xs: seq<DoneItem>, v: Tree)
    requires GoodAround(a) && Spaces(ws0) && Good(v) && forall i :: 0 <= i < |xs| ==> GoodItem(xs[i])
    ensures var z := Closed(a, Arr(ws0, Items(xs, v), []));
      GoodPosition(z) && ReadText(z) == AroundText(InArray(a, ws0, xs)) + Print(v) + ["]"]
  {
    var t := Arr(ws0, Items(xs, v), []);
    GoodItemsOf(xs, v);
    ClosedReads(a, t);
    var body := ["["] + ws0 + ItemsText(xs);
    Assoc(["["] + ws0, ItemsText(xs), Print(v));
    assert Print(t) == body + Print(v) + ["]"];
    Assoc(AroundText(a), body, Print(v));
    Assoc(AroundText(a), body + Print(v), ["]"]);
  }

  lemma {:induction false} CommaInArrayReads(a: Around, ws0: Texts, xs: seq<DoneItem>, v: Tree)
    ensures AroundText(InArray(a, ws0, xs + [DoneItem(v, [])])) == AroundText(InArray(a, ws0, xs)) + Print(v) + [","]
  {
    var tail, body := Print(v) + [","], ["["] + ws0 + ItemsText(xs);
    assert [","] + [] == [","];
    ItemsTextAdd(xs, DoneItem(v, []));
    Assoc(["["] + ws0, ItemsText(xs), tail);
    Assoc(AroundText(a), body, tail);
    Assoc(AroundText(a) + body, Print(v), [","]);
  }

  lemma {:induction false} CommaInObjectReads(a: Around, ws0: Texts, ms: seq<DoneMember>, key: KeyPart, v: Tree)
    ensures ObjectText(a, ws0, ms + [DoneMember(key, v, [])]) == AroundText(InObject(a, ws0, ms, key)) + Print(v) + [","]
  {
    var tail, body := Print(v) + [","], ["{"] + ws0 + MembersText(ms);
    assert [","] + [] == [","];
    MembersTextAdd(ms, DoneMember(key, v, []));
    Assoc(KeyText(key), Print(v), [","]);
    Assoc(["{"] + ws0, MembersText(ms), KeyText(key) + tail);
    Assoc(AroundText(a), body, KeyText(key) + tail);
    Assoc(AroundText(a) + body, KeyText(key), tail);
    Assoc(AroundText(a) + body + KeyText(key), Print(v), [","]);
  }

  lemma {:induction false} CommaAtTopReads(ws: Texts, lead: seq<Lead>, v: Tree)
    ensures AroundText(AtTop(ws, lead + [Lead(v, [])])) == AroundText(AtTop(ws, lead)) + Print(v) + [","]
  {
    assert [","] + [] == [","];
    LeadTextAdd(lead, Lead(v, []));
    Assoc(ws, LeadText(lead), Print(v) + [","]);
    Assoc(ws + LeadText(lead), Print(v), [","]);
  }

  lemma {:induction false} CommaReads(a: Around, v: Tree)
    requires GoodAround(a) && Good(v) && (a.AtTop? ==> Scalar(v))
    ensures GoodPosition(AfterTree(a, v, ","))
    ensures ReadText(AfterTree(a, v, ",")) == AroundText(a) + Print(v) + [","]
  {
    match a
    case AtTop(ws, lead) => CommaAtTopReads(ws, lead, v);
    case InArray(outer, ws0, items) => CommaInArrayReads(outer, ws0, items, v);
    case InObject(outer, ws0, ms, key) => CommaInObjectReads(outer, ws0, ms, key, v);
  }

  /** A comma or the closer that fits, after a value. */
  lemma {:induction false} AfterTreeReads(a: Around, v: Tree, r: string)
    requires GoodAround(a) && Good(v) && (a.AtTop? ==> Scalar(v))
    requires r == "," || (StackOf(a) != [] && r == Closer(StackOf(a)[|StackOf(a)| - 1]))
    ensures GoodPosition(AfterTree(a, v, r))
    ensures ReadText(AfterTree(a, v, r)) == AroundText(a) + Print(v) + [r]
  {
    if r == "," {
      CommaReads(a, v);
    } else {
      match a
      case InArray(outer, ws0, items) => CloseArrayReads(outer, ws0, items, v);
      case InObject(outer, ws0, ms, key) =>
        CloseObjectReads(outer, ws0, ms, LastMember(key, v));
        Assoc(ObjectText(outer, ws0, ms), KeyText(key), Print(v));
    }
  }

  /** What has been read when a value opens. */
  lemma {:induction false} OpeningReads(a: Around)
    ensures ObjectText(a, [], []) == AroundText(a) + ["{"]
    ensures AroundText(InArray(a, [], [])) == AroundText(a) + ["["]
    ensures ReadText(ReadingString(a, [])) == AroundText(a) + ["\""]
  {
    assert MembersText([]) == [] && ["{"] + [] + [] == ["{"];
    assert ItemsText([]) == [] && ["["] + [] + [] == ["["];
    assert ["\""] + [] == ["\""];
  }

  lemma {:induction false} ScalarReads(a: Around, r: string)
    requires GoodAround(a)
    ensures ClassOf(r) == Literal ==> GoodPosition(HaveValue(a, Lit(r, [])))
    ensures ReadText(HaveValue(a, Lit(r, []))) == AroundText(a) + [r]
    ensures ClassOf(r) == Number ==> GoodPosition(ReadingNumber(a, [r]))
  {
    assert [r] + [] == [r];
  }

  lemma {:induction false} WantValueReads(m: Machine, a: Around, r: string)
    requires Views(m, WantValue(a)) && GoodAround(a) && Offers(m, r)
    ensures GoodPosition(Next(WantValue(a), r))
    ensures ReadText(Next(WantValue(a), r)) == AroundText(a) + [r]
  {
    SpaceClass(r);
    if IsSpace(r) {
      AddSpaceReads(a, r);
    } else if IsPunctuation(r) || r == "\"" {
      PunctuationIsApart(r);
      OpeningReads(a);
    } else {
      ScalarReads(a, r);
    }
  }

  lemma {:induction false} WantKeyReads(m: Machine, a: Around, ws0: Texts, ms: seq<DoneMember>, r: string)
    requires Views(m, WantKey(a, ws0, ms)) && GoodPosition(WantKey(a, ws0, ms)) && Offers(m, r)
    ensures GoodPosition(Next(WantKey(a, ws0, ms), r))
    ensures ReadText(Next(WantKey(a, ws0, ms), r)) == ObjectText(a, ws0, ms) + [r]
  {
    SpaceClass(r);
    if IsSpace(r) {
      AddKeySpaceReads(a, ws0, ms, r);
    } else if r != "\"" {
      CloseObjectReads(a, ws0, ms, NoMember);
      assert ObjectText(a, ws0, ms) + [] == ObjectText(a, ws0, ms);
    }
  }

  lemma {:induction false} QuotedReads(front: Texts, body: Texts, r: string)
    ensures front + (["\""] + (body + [r])) == front + (["\""] + body) + [r]
    ensures front + (["\""] + body + [r] + []) == front + (["\""] + body) + [r]
  {
    Assoc(["\""], body, [r]);
    Assoc(front, ["\""] + body, [r]);
    assert ["\""] + body + [r] + [] == ["\""] + body + [r];
  }

  lemma {:induction false} ReadingKeyReads(a: Around, ws0: Texts, ms: seq<DoneMember>, body: Texts, r: string)
    requires GoodPosition(ReadingKey(a, ws0, ms, body))
    ensures GoodPosition(Next(ReadingKey(a, ws0, ms, body), r))
    ensures ReadText(Next(ReadingKey(a, ws0, ms, body), r)) == ObjectText(a, ws0, ms) + (["\""] + body) + [r]
  {
    QuotedReads(ObjectText(a, ws0, ms), body, r);
  }

  lemma {:induction false} WantColonReads(m: Machine, a: Around, ws0: Texts, ms: seq<DoneMember>, body: Texts, ws: Texts, r: string)
    requires var z := WantColon(a, ws0, ms, body, ws); Views(m, z) && GoodPosition(z) && Offers(m, r)
    ensures var z := WantColon(a, ws0, ms, body, ws);
      GoodPosition(Next(z, r)) && ReadText(Next(z, r)) == ReadText(z) + [r]
  {
    SpaceClass(r);
    var q := ["\""] + body + ["\""];
    Assoc(ObjectText(a, ws0, ms), q + ws, [r]);
    Assoc(q, ws, [r]);
    if IsSpace(r) {
      SpacesAdd(ws, r);
    } else {
      assert KeyText(KeyPart(body, ws, [])) == q + ws + [":"];
    }
  }

  lemma {:induction false} ReadingStringReads(a: Around, body: Texts, r: string)
    requires GoodPosition(ReadingString(a, body))
    ensures GoodPosition(Next(ReadingString(a, body), r))
    ensures ReadText(Next(ReadingString(a, body), r)) == AroundText(a) + (["\""] + body) + [r]
  {
    QuotedReads(AroundText(a), body, r);
  }

  lemma {:induction false} NumberClass(r: string)
    requires IsNumberPiece(r) && (ClassOf(r) == Number || r == "," || r == "}" || r == "]")
    ensures ClassOf(r) == Number
  {
    if IsPunctuation(r) {
      PunctuationIsApart(r);
    }
  }

  lemma {:induction false} ReadingNumberReads(m: Machine, a: Around, pieces: Texts, r: string)
    requires Views(m, ReadingNumber(a, pieces)) && GoodPosition(ReadingNumber(a, pieces)) && Offers(m, r)
    ensures GoodPosition(Next(ReadingNumber(a, pieces), r))
    ensures ReadText(Next(ReadingNumber(a, pieces), r)) == AroundText(a) + pieces + [r]
  {
    SpaceClass(r);
    Assoc(AroundText(a), pieces, [r]);
    if !IsSpace(r) {
      if IsNumberPiece(r) {
        NumberClass(r);
      } else {
        assert Print(Num(pieces, [])) == pieces;
        AfterTreeReads(a, Num(pieces, []), r);
      }
    }
  }

  lemma {:induction false} TreeSpace(v: Tree, r: string)
    requires Good(v) && ClassOf(r) == Space
    ensures Good(v.(ws := v.ws + [r])) && Print(v.(ws := v.ws + [r])) == Print(v) + [r]
  {
    SpacesAdd(v.ws, r);
  }

  lemma {:induction false} HaveValueReads(m: Machine, a: Around, v: Tree, r: string)
    requires Views(m, HaveValue(a, v)) && GoodPosition(HaveValue(a, v)) && Offers(m, r)
    ensures GoodPosition(Next(HaveValue(a, v), r))
    ensures ReadText(Next(HaveValue(a, v), r)) == AroundText(a) + Print(v) + [r]
  {
    SpaceClass(r);
    if IsSpace(r) {
      TreeSpace(v, r);
      Assoc(AroundText(a), Print(v), [r]);
    } else {
      AfterTreeReads(a, v, r);
    }
  }

  /** Each offered text extends what the position has read by exactly that text. */
  lemma {:induction false} NextReads(m: Machine, z: Position, r: string)
    requires Views(m, z) && GoodPosition(z) && Offers(m, r)
    ensures GoodPosition(Next(z, r))
    ensures ReadText(Next(z, r)) == ReadText(z) + [r]
  {
    match z
    case WantValue(a) => WantValueReads(m, a, r);
    case WantKey(a, ws0, ms) => WantKeyReads(m, a, ws0, ms, r);
    case ReadingKey(a, ws0, ms, body) => ReadingKeyReads(a, ws0, ms, body, r);
    case WantColon(a, ws0, ms, body, ws) => WantColonReads(m, a, ws0, ms, body, ws, r);
    case ReadingString(a, body) => ReadingStringReads(a, body, r);
    case ReadingNumber(a, pieces) => ReadingNumberReads(m, a, pieces, r);
    case HaveValue(a, v) => HaveValueReads(m, a, v, r);
  }

  // ----- whole runs -------------------------------------------------------------------------------

  /** `z` is where the machine stands after reading `rs`. */
  ghost predicate StandsAt(m: Machine, z: Position, rs: Texts) {
    forall k: nat :: Peek(k) ==> Views(m, z) && GoodPosition(z) && ReadText(z) == rs
  }

  lemma {:induction false} Advance(m: Machine, z: Position, rs: Texts, r: string) returns (z': Position)
    requires StandsAt(m, z, rs) && Offers(m, r)
    ensures StandsAt(Step(m, r), z', rs + [r])
  {
    z' := Next(z, r);
    assert Peek(0);
    NextIsViewed(m, z, r);
    NextReads(m, z, r);
  }

  lemma {:induction false} RunReads(m: Machine, z: Position, past: Texts, rs: Texts) returns (z': Position)
    requires StandsAt(m, z, past) && OfferedRun(m, rs)
    ensures StandsAt(Feed(m, rs), z', past + rs)
    decreases |rs|
  {
    if rs == [] {
      z' := z;
      assert past + rs == past;
    } else {
      z' := Advance(m, z, past, rs[0]);
      z' := RunReads(Step(m, rs[0]), z', past + [rs[0]], rs[1..]);
      assert past + [rs[0]] + rs[1..] == past + rs;
    }
  }

  /** The exact language: a sequence of texts is a run over offered texts that completes the machine
      if and only if it is the print of a document. */
  lemma {:induction false} LanguageIsDocuments(rs: Texts)
    ensures OfferedRun(START, rs) && Feed(START, rs).completed
        <==> exists d :: GoodDocument(d) && Text(d) == rs
  {
    if OfferedRun(START, rs) && Feed(START, rs).completed {
      var z := RunReads(START, WantValue(AtTop([], [])), [], rs);
      assert [] + rs == rs && Peek(0);
      assert GoodDocument(z.document) && Text(z.document) == rs;
    }
    if exists d :: GoodDocument(d) && Text(d) == rs {
      var d :| GoodDocument(d) && Text(d) == rs;
      DocumentsAreAccepted(d);
    }
  }
}

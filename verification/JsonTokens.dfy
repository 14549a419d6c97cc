/** The JSON token machine as the code runs it (tools/chat_v6.py, `JSONSyntaxStateMachine`): over a
    vocabulary of token ids, with the id sets computed once and the state updated in place.
 */
module JsonTokens {
  import opened Basics
  import opened JsonMachine
  import F = JsonFinish
  import G = JsonGrammar
  import JsonLanguage

  datatype Entry = Entry(tok: string, id: int)

  /** Vocabulary in the order of its dictionary; `raw` undoes the byte-level spelling of a token. */
  datatype Vocab = Vocab(entries: seq<Entry>, raw: string -> string)

  predicate IsSpecial(tok: string) {
    "<|" <= tok || "</" <= tok
  }

  predicate Listed(v: Vocab, i: nat)
    requires i < |v.entries|
  {
    !IsSpecial(v.entries[i].tok)
  }

  function TextAt(v: Vocab, i: nat): string
    requires i < |v.entries|
  {
    v.raw(v.entries[i].tok)
  }

  /** Ids of the listed tokens of one class among the first `k` entries. */
  function ClassIds(v: Vocab, c: Class, k: nat): set<int>
    requires k <= |v.entries|
  {
    if k == 0 then {}
    else ClassIds(v, c, k - 1) + if Listed(v, k - 1) && ClassOf(TextAt(v, k - 1)) == c then {v.entries[k - 1].id} else {}
  }

  /** Ids of the listed tokens that may stand inside a string. */
  function ContentIds(v: Vocab, k: nat): set<int>
    requires k <= |v.entries|
  {
    if k == 0 then {}
    else ContentIds(v, k - 1) + if Listed(v, k - 1) && TextAt(v, k - 1) != "\"" then {v.entries[k - 1].id} else {}
  }

  lemma {:induction false} ClassIdsMember(v: Vocab, c: Class, k: nat, id: int)
    requires k <= |v.entries|
    ensures id in ClassIds(v, c, k) <==>
              exists i :: 0 <= i < k && Listed(v, i) && ClassOf(TextAt(v, i)) == c && v.entries[i].id == id
  {
    if k > 0 {
      ClassIdsMember(v, c, k - 1, id);
    }
  }

  lemma {:induction false} ContentIdsMember(v: Vocab, k: nat, i: nat)
    requires i < k <= |v.entries| && Listed(v, i) && TextAt(v, i) != "\""
    ensures v.entries[i].id in ContentIds(v, k)
  {
    if i < k - 1 {
      ContentIdsMember(v, k - 1, i);
    }
  }

  /** The first listed token spelled `p`. */
  function FirstId(v: Vocab, p: string, k: nat): Option<int>
    requires k <= |v.entries|
  {
    if k == 0 then None
    else
      var f := FirstId(v, p, k - 1);
      if f.Some? then f
      else if Listed(v, k - 1) && TextAt(v, k - 1) == p then Some(v.entries[k - 1].id)
      else None
  }

  function Single(o: Option<int>): set<int> {
    if o.Some? then {o.value} else {}
  }

  function PunctId(v: Vocab, p: string): set<int> {
    Single(FirstId(v, p, |v.entries|))
  }

  function AllOf(v: Vocab, c: Class): set<int> {
    ClassIds(v, c, |v.entries|)
  }

  /** The closer of the innermost bracket, if there is one. */
  function CloserId(v: Vocab, m: Machine): set<int> {
    if m.stack == [] then {} else PunctId(v, Closer(Top(m)))
  }

  function ModeIds(v: Vocab, m: Machine): set<int> {
    match m.mode
    case Value => AllOf(v, Space) + AllOf(v, Quote) + AllOf(v, Number) + AllOf(v, Literal) + PunctId(v, "{") + PunctId(v, "[")
    case Key => AllOf(v, Space) + AllOf(v, Quote) + (if m.stack != [] && Top(m) == Curly then PunctId(v, "}") else {})
    case Colon => AllOf(v, Space) + PunctId(v, ":")
    case AfterValue => AllOf(v, Space) + PunctId(v, ",") + CloserId(v, m)
    case InString => AllOf(v, Space) + ContentIds(v, |v.entries|) + AllOf(v, Quote)
    case InNumber => AllOf(v, Space) + AllOf(v, Number) + PunctId(v, ",") + CloserId(v, m)
    case Done => AllOf(v, Space)
  }

  function InRange(ids: set<int>, size: int): set<int> {
    set id | id in ids && 0 <= id < size
  }

  /** Ids the machine offers in state `m`. */
  function AllowedIds(v: Vocab, size: int, m: Machine): set<int> {
    if m.completed then {} else InRange(ModeIds(v, m), size)
  }

  /** The text `advance` sees for an id: the token of the last entry with it, none when unknown. */
  function TextOf(v: Vocab, id: int, k: nat): string
    requires k <= |v.entries|
  {
    if k == 0 then ""
    else if v.entries[k - 1].id == id then TextAt(v, k - 1)
    else TextOf(v, id, k - 1)
  }

  function IdText(v: Vocab, id: int): string {
    TextOf(v, id, |v.entries|)
  }

  /** The machine object: vocabulary sets built once, state updated in place. */
  class TokenMachine {
    const v: Vocab
    const hasVocab: bool
    const size: int
    var stringStart: set<int>
    var content: set<int>
    var number: set<int>
    var literal: set<int>
    var whitespace: set<int>
    var structId: map<string, int>
    var mode: Mode
    var stack: seq<Bracket>
    var keyRole: bool
    var completed: bool

    function View(): Machine
      reads this
    {
      Machine(mode, stack, keyRole, completed)
    }

    ghost predicate StructUpTo(k: nat)
      requires k <= |v.entries|
      reads this
    {
      forall p :: IsPunctuation(p) ==>
        (p in structId <==> FirstId(v, p, k).Some?) && (p in structId ==> structId[p] == FirstId(v, p, k).value)
    }

    ghost predicate ClassesUpTo(k: nat)
      requires k <= |v.entries|
      reads this
    {
      && stringStart == ClassIds(v, Quote, k) && number == ClassIds(v, Number, k)
      && literal == ClassIds(v, Literal, k) && whitespace == ClassIds(v, Space, k)
    }

    ghost predicate SetsUpTo(k: nat)
      requires k <= |v.entries|
      reads this
    {
      ClassesUpTo(k) && content == ContentIds(v, k) && StructUpTo(k)
    }

    ghost predicate Valid()
      reads this
    {
      SetsUpTo(if hasVocab then |v.entries| else 0)
    }

    constructor (v: Vocab, hasVocab: bool, size: int)
      ensures this.v == v && this.hasVocab == hasVocab && this.size == size
      ensures Valid() && View() == START
    {
      this.v, this.hasVocab, this.size := v, hasVocab, size;
      stringStart, content, number, literal, whitespace := {}, {}, {}, {}, {};
      structId := map[];
      mode, stack, keyRole, completed := Value, [], false, false;
      new;
      if hasVocab {
        for k := 0 to |v.entries|
          invariant SetsUpTo(k) && View() == START
        {
          FileEntry(k);
        }
      }
    }

    method FileStruct(k: nat)
      requires k < |v.entries| && StructUpTo(k)
      modifies this`structId
      ensures StructUpTo(k + 1)
    {
      var raw := v.raw(v.entries[k].tok);
      if Listed(v, k) && IsPunctuation(raw) && raw !in structId {
        structId := structId[raw := v.entries[k].id];
      }
    }

    method FileClass(k: nat)
      requires k < |v.entries| && ClassesUpTo(k)
      modifies this`stringStart, this`number, this`literal, this`whitespace
      ensures ClassesUpTo(k + 1)
    {
      if Listed(v, k) {
        var id := v.entries[k].id;
        match ClassOf(v.raw(v.entries[k].tok)) {
          case Quote => stringStart := stringStart + {id};
          case Space => whitespace := whitespace + {id};
          case Literal => literal := literal + {id};
          case Number => number := number + {id};
          case Punctuation =>
          case Other =>
        }
      }
    }

    /** Files one vocabulary entry under its class. */
    method FileEntry(k: nat)
      requires k < |v.entries| && SetsUpTo(k)
      modifies this
      ensures SetsUpTo(k + 1) && View() == old(View())
    {
      FileStruct(k);
      FileClass(k);
      if Listed(v, k) && v.raw(v.entries[k].tok) != "\"" {
        content := content + {v.entries[k].id};
      }
    }

    method Add(allowed: set<int>, p: string) returns (r: set<int>)
      requires Valid() && hasVocab && IsPunctuation(p)
      ensures r == allowed + PunctId(v, p)
    {
      r := if p in structId then allowed + {structId[p]} else allowed;
    }

    method GetAllowedTokens() returns (allowed: set<int>)
      requires Valid()
      ensures allowed == if hasVocab then AllowedIds(v, size, View()) else {}
    {
      if completed || !hasVocab {
        return {};
      }
      allowed := whitespace;
      if mode == Value {
        allowed := allowed + stringStart + number + literal;
        allowed := Add(allowed, "{");
        allowed := Add(allowed, "[");
      } else if mode == Key {
        allowed := allowed + stringStart;
        if stack != [] && stack[|stack| - 1] == Curly {
          allowed := Add(allowed, "}");
        }
      } else if mode == Colon {
        allowed := Add(allowed, ":");
      } else if mode == AfterValue || mode == InNumber {
        if mode == InNumber {
          allowed := allowed + number;
        }
        allowed := Add(allowed, ",");
        if stack != [] {
          allowed := Add(allowed, if stack[|stack| - 1] == Curly then "}" else "]");
        }
      } else if mode == InString {
        allowed := allowed + content + stringStart;
      }
      allowed := InRange(allowed, size);
    }

    method CloseBracket()
      requires !completed
      modifies this`stack, this`mode, this`completed
      ensures View() == Close(old(View()))
    {
      if stack != [] {
        stack := stack[..|stack| - 1];
      }
      if stack == [] {
        completed := true;
        mode := Done;
      } else {
        mode := AfterValue;
      }
    }

    method Advance(id: int)
      requires Valid()
      modifies this`mode, this`stack, this`keyRole, this`completed
      ensures View() == if hasVocab then Step(old(View()), IdText(v, id)) else old(View())
    {
      if completed || !hasVocab {
        return;
      }
      var raw := IdText(v, id);
      if IsSpace(raw) {
        if mode == InNumber {
          mode := AfterValue;
        }
        return;
      }
      if mode == InString {
        if raw == "\"" {
          mode := if keyRole then Colon else AfterValue;
        }
        return;
      }
      if mode == InNumber {
        if IsNumberPiece(raw) {
          return;
        }
        mode := AfterValue;
      }
      if mode == Value {
        if raw == "{" {
          stack, mode := stack + [Curly], Key;
        } else if raw == "[" {
          stack, mode := stack + [Square], Value;
        } else if raw == "\"" {
          keyRole, mode := false, InString;
        } else if IsLiteral(raw) {
          mode := AfterValue;
        } else if IsNumberPiece(raw) {
          mode := InNumber;
        }
        return;
      }
      if mode == Key {
        if raw == "\"" {
          keyRole, mode := true, InString;
        } else if raw == "}" {
          CloseBracket();
        }
        return;
      }
      if mode == Colon && raw == ":" {
        mode := Value;
        return;
      }
      if mode == AfterValue {
        if raw == "," {
          mode := if stack != [] && stack[|stack| - 1] == Curly then Key else Value;
        } else if raw == "}" || raw == "]" {
          CloseBracket();
        }
      }
    }
  }

  // ----- ids and texts --------------------------------------------------------------------------

  /** No two tokens share an id. */
  predicate UniqueIds(v: Vocab) {
    forall i, k :: 0 <= i < k < |v.entries| ==> v.entries[i].id != v.entries[k].id
  }

  lemma {:induction false} TextOfEntry(v: Vocab, i: nat, k: nat)
    requires UniqueIds(v) && i < k <= |v.entries|
    ensures TextOf(v, v.entries[i].id, k) == TextAt(v, i)
  {
    if i < k - 1 {
      TextOfEntry(v, i, k - 1);
    }
  }

  lemma {:induction false} FirstIdSpells(v: Vocab, p: string, k: nat)
    requires UniqueIds(v) && k <= |v.entries| && FirstId(v, p, k).Some?
    ensures IdText(v, FirstId(v, p, k).value) == p
  {
    if FirstId(v, p, k - 1).Some? {
      FirstIdSpells(v, p, k - 1);
    } else {
      TextOfEntry(v, k - 1, |v.entries|);
    }
  }

  lemma {:induction false} PunctSpells(v: Vocab, p: string, id: int)
    requires UniqueIds(v) && id in PunctId(v, p)
    ensures IdText(v, id) == p
  {
    FirstIdSpells(v, p, |v.entries|);
  }

  lemma {:induction false} ClassSpells(v: Vocab, c: Class, id: int)
    requires UniqueIds(v) && id in AllOf(v, c)
    ensures ClassOf(IdText(v, id)) == c
  {
    ClassIdsMember(v, c, |v.entries|, id);
    var i :| 0 <= i < |v.entries| && Listed(v, i) && ClassOf(TextAt(v, i)) == c && v.entries[i].id == id;
    TextOfEntry(v, i, |v.entries|);
  }

  /** Every offered id spells a text the machine offers. */
  lemma {:induction false} OfferedIdSpellsOfferedText(v: Vocab, size: int, m: Machine, id: int)
    requires UniqueIds(v) && id in AllowedIds(v, size, m)
    ensures Offers(m, IdText(v, id))
  {
    if id in AllOf(v, Space) {
      ClassSpells(v, Space, id);
    } else if id in AllOf(v, Quote) && (m.mode == Value || m.mode == Key) {
      ClassSpells(v, Quote, id);
    } else if id in AllOf(v, Number) && (m.mode == Value || m.mode == InNumber) {
      ClassSpells(v, Number, id);
    } else if id in AllOf(v, Literal) && m.mode == Value {
      ClassSpells(v, Literal, id);
    } else if m.mode != InString {
      var p := if m.mode == Colon then ":"
               else if m.mode == Key then "}"
               else if m.mode == Value then (if id in PunctId(v, "{") then "{" else "[")
               else if id in PunctId(v, ",") then ","
               else Closer(Top(m));
      PunctSpells(v, p, id);
    }
  }

  /** Texts of a sequence of ids. */
  function IdTexts(v: Vocab, ids: seq<int>): (rs: seq<string>)
    ensures |rs| == |ids|
  {
    seq(|ids|, i requires 0 <= i < |ids| => IdText(v, ids[i]))
  }

  /** A run that takes only offered ids. */
  predicate OfferedIds(v: Vocab, size: int, m: Machine, ids: seq<int>)
    decreases |ids|
  {
    ids == [] || (ids[0] in AllowedIds(v, size, m) && OfferedIds(v, size, Step(m, IdText(v, ids[0])), ids[1..]))
  }

  lemma {:induction false} OfferedIdsSpellRun(v: Vocab, size: int, m: Machine, ids: seq<int>)
    requires UniqueIds(v) && OfferedIds(v, size, m, ids)
    ensures OfferedRun(m, IdTexts(v, ids))
    decreases |ids|
  {
    if ids != [] {
      OfferedIdSpellsOfferedText(v, size, m, ids[0]);
      OfferedIdsSpellRun(v, size, Step(m, IdText(v, ids[0])), ids[1..]);
      assert IdTexts(v, ids)[1..] == IdTexts(v, ids[1..]);
    }
  }

  /** Whatever is generated under the machine and completes it is the print of a document. */
  lemma {:induction false} CompletedIdsAreDocuments(v: Vocab, size: int, ids: seq<int>)
    requires UniqueIds(v) && OfferedIds(v, size, START, ids) && Feed(START, IdTexts(v, ids)).completed
    ensures exists d :: G.GoodDocument(d) && G.Text(d) == IdTexts(v, ids)
  {
    OfferedIdsSpellRun(v, size, START, ids);
    JsonLanguage.LanguageIsDocuments(IdTexts(v, ids));
  }

  // ----- vocabularies that can spell a text -------------------------------------------------------

  /** Some listed token in range spells `r`; for punctuation it is the first one. */
  ghost predicate Spells(v: Vocab, size: int, r: string) {
    if IsPunctuation(r) then
      FirstId(v, r, |v.entries|).Some? && 0 <= FirstId(v, r, |v.entries|).value < size
    else
      exists i :: 0 <= i < |v.entries| && Listed(v, i) && TextAt(v, i) == r && 0 <= v.entries[i].id < size
  }

  /** An id with text `r` that is offered whenever the machine offers `r`. */
  lemma {:induction false} OfferedTextHasId(v: Vocab, size: int, m: Machine, r: string) returns (id: int)
    requires UniqueIds(v) && Spells(v, size, r) && Offers(m, r)
    ensures id in AllowedIds(v, size, m) && IdText(v, id) == r
  {
    if IsPunctuation(r) && m.mode != InString {
      id := FirstId(v, r, |v.entries|).value;
      assert id in PunctId(v, r);
      PunctSpells(v, r, id);
    } else {
      var i: nat;
      if IsPunctuation(r) {
        i := FirstIndex(v, r, |v.entries|);
      } else {
        i :| 0 <= i < |v.entries| && Listed(v, i) && TextAt(v, i) == r && 0 <= v.entries[i].id < size;
      }
      id := v.entries[i].id;
      TextOfEntry(v, i, |v.entries|);
      ClassIdsMember(v, ClassOf(r), |v.entries|, id);
      if r != "\"" {
        ContentIdsMember(v, |v.entries|, i);
      }
    }
  }

  lemma {:induction false} FirstIndex(v: Vocab, p: string, k: nat) returns (i: nat)
    requires k <= |v.entries| && FirstId(v, p, k).Some?
    ensures i < k && Listed(v, i) && TextAt(v, i) == p && v.entries[i].id == FirstId(v, p, k).value
  {
    if FirstId(v, p, k - 1).Some? {
      i := FirstIndex(v, p, k - 1);
    } else {
      i := k - 1;
    }
  }

  lemma {:induction false} RunHasIds(v: Vocab, size: int, m: Machine, rs: seq<string>) returns (ids: seq<int>)
    requires UniqueIds(v) && OfferedRun(m, rs) && forall i :: 0 <= i < |rs| ==> Spells(v, size, rs[i])
    ensures OfferedIds(v, size, m, ids) && IdTexts(v, ids) == rs
    decreases |rs|
  {
    if rs == [] {
      ids := [];
    } else {
      var id := OfferedTextHasId(v, size, m, rs[0]);
      var rest := RunHasIds(v, size, Step(m, rs[0]), rs[1..]);
      ids := [id] + rest;
      assert ids[1..] == rest;
      assert IdTexts(v, ids) == [rs[0]] + IdTexts(v, rest);
    }
  }

  /** Every document the vocabulary can spell can be generated: there are ids for its texts, each
      offered when its turn comes, and the last one completes the machine. */
  lemma {:induction false} DocumentsCanBeGenerated(v: Vocab, size: int, d: G.Document) returns (ids: seq<int>)
    requires UniqueIds(v) && G.GoodDocument(d)
    requires forall i :: 0 <= i < |G.Text(d)| ==> Spells(v, size, G.Text(d)[i])
    ensures OfferedIds(v, size, START, ids) && IdTexts(v, ids) == G.Text(d)
    ensures Feed(START, IdTexts(v, ids)).completed
  {
    G.DocumentsAreAccepted(d);
    ids := RunHasIds(v, size, START, G.Text(d));
  }

  // ----- vocabularies that never get stuck ----------------------------------------------------------

  /** The texts a vocabulary supplies. */
  ghost function SupplyOf(v: Vocab, size: int): F.Supply {
    r => Spells(v, size, r)
  }

  lemma {:induction false} ClassSupplies(v: Vocab, size: int, c: Class, id: int)
    requires UniqueIds(v) && id in AllOf(v, c) && 0 <= id < size && c != Punctuation
    ensures Spells(v, size, IdText(v, id)) && ClassOf(IdText(v, id)) == c
  {
    ClassIdsMember(v, c, |v.entries|, id);
    var i :| 0 <= i < |v.entries| && Listed(v, i) && ClassOf(TextAt(v, i)) == c && v.entries[i].id == id;
    TextOfEntry(v, i, |v.entries|);
  }

  lemma {:induction false} PunctSupplies(v: Vocab, size: int, p: string, id: int)
    requires UniqueIds(v) && id in PunctId(v, p) && 0 <= id < size && IsPunctuation(p)
    ensures Spells(v, size, IdText(v, id))
  {
    PunctSpells(v, p, id);
  }

  lemma {:induction false} ContentIsNoQuote(v: Vocab, k: nat, id: int)
    requires UniqueIds(v) && k <= |v.entries| && id in ContentIds(v, k)
    ensures IdText(v, id) != "\""
  {
    if id in ContentIds(v, k - 1) {
      ContentIsNoQuote(v, k - 1, id);
    } else {
      TextOfEntry(v, k - 1, |v.entries|);
    }
  }

  /** Outside strings an offered id spells a supplied text. */
  lemma {:induction false} OfferedIsSupplied(v: Vocab, size: int, m: Machine, id: int)
    requires UniqueIds(v) && id in AllowedIds(v, size, m) && m.mode != InString
    ensures Spells(v, size, IdText(v, id))
  {
    if id in AllOf(v, Space) {
      ClassSupplies(v, size, Space, id);
    } else if id in AllOf(v, Quote) {
      ClassSupplies(v, size, Quote, id);
    } else if id in AllOf(v, Number) {
      ClassSupplies(v, size, Number, id);
    } else if id in AllOf(v, Literal) {
      ClassSupplies(v, size, Literal, id);
    } else {
      var p :| IsPunctuation(p) && id in PunctId(v, p);
      PunctSupplies(v, size, p, id);
    }
  }

  lemma {:induction false} OfferedIsTaken(v: Vocab, size: int, m: Machine, id: int)
    requires UniqueIds(v) && id in AllowedIds(v, size, m)
    ensures F.Takes(SupplyOf(v, size), m, IdText(v, id))
  {
    OfferedIdSpellsOfferedText(v, size, m, id);
    if m.mode != InString {
      OfferedIsSupplied(v, size, m, id);
    } else if id in AllOf(v, Quote) {
      ClassSupplies(v, size, Quote, id);
    } else if id in AllOf(v, Space) {
      ClassSupplies(v, size, Space, id);
    } else {
      ContentIsNoQuote(v, |v.entries|, id);
    }
  }

  lemma {:induction false} OfferedIdsAreTaken(v: Vocab, size: int, m: Machine, ids: seq<int>)
    requires UniqueIds(v) && OfferedIds(v, size, m, ids)
    ensures F.Taken(SupplyOf(v, size), m, IdTexts(v, ids))
    decreases |ids|
  {
    if ids != [] {
      OfferedIsTaken(v, size, m, ids[0]);
      OfferedIdsAreTaken(v, size, Step(m, IdText(v, ids[0])), ids[1..]);
      assert IdTexts(v, ids)[1..] == IdTexts(v, ids[1..]);
    }
  }

  /** From every reachable unfinished state at most four ids more than the stack is deep, or six without an opening
      brace, each offered in its turn, complete the machine. */
  lemma {:induction false} UnfinishedIdsCanFinish(v: Vocab, size: int, ids: seq<int>) returns (more: seq<int>)
    requires UniqueIds(v) && F.Completable(SupplyOf(v, size))
    requires OfferedIds(v, size, START, ids) && !Feed(START, IdTexts(v, ids)).completed
    ensures var m := Feed(START, IdTexts(v, ids));
      && OfferedIds(v, size, m, more) && Feed(m, IdTexts(v, more)).completed
      && |more| <= |m.stack| + (if Spells(v, size, "{") then 4 else 6)
  {
    OfferedIdsAreTaken(v, size, START, ids);
    var texts := F.SuppliedCanFinish(SupplyOf(v, size), IdTexts(v, ids));
    more := RunHasIds(v, size, Feed(START, IdTexts(v, ids)), texts);
  }

  ghost predicate IdsCanFinish(v: Vocab, size: int, m: Machine) {
    exists more: seq<int> :: OfferedIds(v, size, m, more) && Feed(m, IdTexts(v, more)).completed
  }

  /** No run over offered ids ends where no further offered ids complete the machine. */
  ghost predicate NeverStuck(v: Vocab, size: int) {
    forall ids: seq<int> :: OfferedIds(v, size, START, ids) && !Feed(START, IdTexts(v, ids)).completed ==>
      IdsCanFinish(v, size, Feed(START, IdTexts(v, ids)))
  }

  lemma {:induction false} IdsReachTexts(v: Vocab, size: int, rs: seq<string>)
    requires UniqueIds(v) && NeverStuck(v, size)
    requires OfferedRun(START, rs) && F.AllSupplied(SupplyOf(v, size), rs) && !Feed(START, rs).completed
    ensures F.CanFinish(SupplyOf(v, size), Feed(START, rs))
  {
    var m := Feed(START, rs);
    var ids := RunHasIds(v, size, START, rs);
    assert IdsCanFinish(v, size, m);
    var more: seq<int> :| OfferedIds(v, size, m, more) && Feed(m, IdTexts(v, more)).completed;
    OfferedIdsAreTaken(v, size, m, more);
  }

  /** Generation over a vocabulary never gets stuck if and only if the texts it supplies have what it takes. */
  lemma {:induction false} NeverStuckIff(v: Vocab, size: int)
    requires UniqueIds(v)
    ensures NeverStuck(v, size) <==> F.Completable(SupplyOf(v, size))
  {
    var sp := SupplyOf(v, size);
    F.NeverStuckIff(sp);
    if NeverStuck(v, size) {
      forall rs: seq<string> | OfferedRun(START, rs) && F.AllSupplied(sp, rs) && !Feed(START, rs).completed
        ensures F.CanFinish(sp, Feed(START, rs))
      {
        IdsReachTexts(v, size, rs);
      }
    }
    if F.Completable(sp) {
      forall ids: seq<int> | OfferedIds(v, size, START, ids) && !Feed(START, IdTexts(v, ids)).completed
        ensures IdsCanFinish(v, size, Feed(START, IdTexts(v, ids)))
      {
        var more := UnfinishedIdsCanFinish(v, size, ids);
      }
    }
  }
}

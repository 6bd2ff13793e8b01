/** The Ontol grammar (src/ontol/parser.py, the `@_` rules of class `Parser`), as a
    recogniser over the lexer's tokens. It decides what the LALR parser accepts (with its
    shift preferences) and reports, in order, the points at which the parser runs a
    grammar action: a meta statement, an attribute, a parameter list, a type, a function
    or a hierarchy entry. The actions themselves, which touch the ontology, are in
    module OntolParser. */
module OntolGrammar {
  import opened Wrappers
  import opened Text
  import opened OntolLexer

  datatype MetaField = Version | Title | Author | Description | Date | Kind

  /** A grammar action, with the tokens it reads. */
  datatype Event =
    | MetaStatement(field: MetaField, value: Token)
    | AttributeRead(key: Token, value: Token)
    | ParamsRead(params: seq<Item>)
    | TypeEntry(name: Token, labelText: Token, description: Token, attributes: seq<Item>)
    | FunctionEntry(name: Token, labelText: Token, params: seq<Item>, output: Token, outputLabel: Token,
                    attributes: seq<Item>)
    | HierarchyEntry(parent: Token, tag: Token, child: Token, attributes: seq<Item>)

  /** An `IDENTIFIER COLON STRING` item of a parameter or attribute list. */
  datatype Item = Item(key: Token, value: Token)

  /** Where the parser gave up: at an unexpected token, at the end of input, or when the
      lexer raised on an illegal character. */
  datatype Fault = Unexpected(token: Token) | AtEof | IllegalChar(ch: char)

  /** A phrase recognised up to `next`, or the point where recognition stopped; either
      way with the actions it ran on the way. */
  datatype Parsed<T> = Parsed(value: T, events: seq<Event>, next: nat) | Stuck(events: seq<Event>, fault: Fault)

  /** The whole input: the actions run, in order, and the fault that ended it, if any. */
  datatype Recognised = Recognised(events: seq<Event>, fault: Option<Fault>)

  predicate Is(lx: Lexed, i: nat, k: TokenKind) {
    i < |lx.tokens| && lx.tokens[i].kind == k
  }

  /** What the parser sees at `i` when it cannot use it. */
  function FaultAt(lx: Lexed, i: nat): Fault {
    if i < |lx.tokens| then Unexpected(lx.tokens[i])
    else if lx.error.Some? then IllegalChar(lx.error.value)
    else AtEof
  }

  function Prepend<T>(evs: seq<Event>, p: Parsed<T>): (r: Parsed<T>)
    ensures r.Parsed? <==> p.Parsed?
    ensures r.Parsed? ==> r.value == p.value && r.next == p.next
    ensures r.events == evs + p.events
  {
    match p
    case Parsed(v, e, n) => Parsed(v, evs + e, n)
    case Stuck(e, f) => Stuck(evs + e, f)
  }

  /** `IDENTIFIER COLON STRING` at `i`. */
  function ItemAt(lx: Lexed, i: nat): (r: Parsed<Item>)
    ensures r.Parsed? ==> r.next == i + 3 <= |lx.tokens| && r.events == []
    ensures r.Parsed? ==> r.value.key == lx.tokens[i] && r.value.value == lx.tokens[i + 2]
                          && r.value.key.kind == Identifier && r.value.value.kind == StringLit
  {
    if !Is(lx, i, Identifier) then Stuck([], FaultAt(lx, i))
    else if !Is(lx, i + 1, Colon) then Stuck([], FaultAt(lx, i + 1))
    else if !Is(lx, i + 2, StringLit) then Stuck([], FaultAt(lx, i + 2))
    else Parsed(Item(lx.tokens[i], lx.tokens[i + 2]), [], i + 3)
  }

  /** The rest of a parameter or attribute list after its items so far (`acc`), up to and
      including `close`. `lead` says whether a newline followed the opening bracket: only
      then may the list end with a comma and a newline. An attribute item runs its action
      once the parser holds the token after it (`attribute`, src/ontol/parser.py:410-415). */
  function ListRest(lx: Lexed, i: nat, lead: bool, close: TokenKind, attribute: bool, acc: seq<Item>): (r: Parsed<seq<Item>>)
    ensures r.Parsed? ==> i < r.next <= |lx.tokens| && |r.value| >= |acc| && r.value[..|acc|] == acc
    ensures r.Parsed? ==> Follows(lx, i, close)
    ensures r.Parsed? && !attribute ==> r.events == []
    decreases |lx.tokens| - i
  {
    if Is(lx, i, Comma) && Is(lx, AfterComma(lx, i), Identifier) then
      match ItemAt(lx, AfterComma(lx, i))
      case Parsed(item, _, n) =>
        var rest := ListRest(lx, n, lead, close, attribute, acc + [item]);
        ListPrefix(rest, acc, item);
        Prepend(ItemActions(lx, n, close, attribute, item), rest)
      case Stuck(e, f) => Stuck(e, f)
    else ListClose(lx, i, lead, close, acc)
  }

  /** The tokens that can follow an item: a comma, a NEWLINE or the closing token. */
  predicate Follows(lx: Lexed, i: nat, close: TokenKind) {
    Is(lx, i, Comma) || Is(lx, i, Newline) || Is(lx, i, close)
  }

  /** The action of an item that ends before `n`. The LALR parser reduces an attribute
      only with the next token in hand, and that state has several lookaheads, so the
      action runs only when that token can follow an attribute; an illegal character
      or an unusable token there raises first. A parameter has no action. */
  function ItemActions(lx: Lexed, n: nat, close: TokenKind, attribute: bool, item: Item): (r: seq<Event>)
    ensures |r| <= 1
  {
    if attribute && Follows(lx, n, close) then [AttributeRead(item.key, item.value)] else []
  }

  /** Where a comma is followed by the next item: past one optional NEWLINE. */
  function AfterComma(lx: Lexed, i: nat): nat {
    if Is(lx, i + 1, Newline) then i + 2 else i + 1
  }

  /** The end of a list once no further item follows: the closing token, after a NEWLINE,
      or after a comma and a NEWLINE when the list opened with a NEWLINE. */
  function ListClose(lx: Lexed, i: nat, lead: bool, close: TokenKind, acc: seq<Item>): (r: Parsed<seq<Item>>)
    ensures r.Parsed? ==> r.value == acc && r.events == [] && i < r.next <= |lx.tokens| && Is(lx, r.next - 1, close)
    ensures r.Parsed? ==> Follows(lx, i, close)
  {
    if Is(lx, i, Comma) then
      var j := AfterComma(lx, i);
      if lead && j == i + 2 && Is(lx, j, close) then Parsed(acc, [], j + 1) else Stuck([], FaultAt(lx, j))
    else if Is(lx, i, Newline) then
      if Is(lx, i + 1, close) then Parsed(acc, [], i + 2) else Stuck([], FaultAt(lx, i + 1))
    else if Is(lx, i, close) then Parsed(acc, [], i + 1)
    else Stuck([], FaultAt(lx, i))
  }

  /** Items read after `acc + [item]` were read after `acc`. */
  lemma ListPrefix(rest: Parsed<seq<Item>>, acc: seq<Item>, item: Item)
    ensures rest.Parsed? && |rest.value| >= |acc| + 1 && rest.value[..|acc| + 1] == acc + [item]
            ==> rest.value[..|acc|] == acc
  {
    if rest.Parsed? && |rest.value| >= |acc| + 1 && rest.value[..|acc| + 1] == acc + [item] {
      PrefixShorter(rest.value, acc, item);
    }
  }

  /** A bracketed list `open [NEWLINE] items ... close` starting at the opening token. */
  function Bracketed(lx: Lexed, i: nat, open: TokenKind, close: TokenKind, attribute: bool): (r: Parsed<seq<Item>>)
    ensures r.Parsed? ==> i < r.next <= |lx.tokens|
    ensures r.Parsed? && !attribute ==> r.events == []
  {
    if !Is(lx, i, open) then Stuck([], FaultAt(lx, i))
    else
      var lead := Is(lx, i + 1, Newline);
      var j := if lead then i + 2 else i + 1;
      if Is(lx, j, Identifier) then
        match ItemAt(lx, j)
        case Parsed(item, _, n) =>
          Prepend(ItemActions(lx, n, close, attribute, item), ListRest(lx, n, lead, close, attribute, [item]))
        case Stuck(e, f) => Stuck(e, f)
      else ListRest(lx, j, lead, close, attribute, [])
  }

  /** What may follow an entry's last field: `, { attributes }`, or nothing when the next
      token is the entry's NEWLINE (an absent block is an empty attribute list). */
  function EntryAttributes(lx: Lexed, i: nat): (r: Parsed<seq<Item>>)
    ensures r.Parsed? ==> i <= r.next <= |lx.tokens|
    ensures Is(lx, i, Newline) ==> r == Parsed([], [], i)
  {
    if Is(lx, i, Comma) then Bracketed(lx, i + 1, LBrace, RBrace, true)
    else if Is(lx, i, Newline) then Parsed([], [], i)
    else Stuck([], FaultAt(lx, i))
  }

  /** An entry's action, then the NEWLINE that ends the entry. */
  function EndEntry(lx: Lexed, evs: seq<Event>, i: nat): (r: Parsed<()>)
    ensures r.Parsed? ==> r.next == i + 1 <= |lx.tokens| && Is(lx, i, Newline)
    ensures r.events == evs
  {
    if Is(lx, i, Newline) then Parsed((), evs, i + 1) else Stuck(evs, FaultAt(lx, i))
  }

  /** `type: IDENTIFIER COLON STRING COMMA STRING attributes`, then NEWLINE. */
  function TypeLine(lx: Lexed, i: nat): (r: Parsed<()>)
    ensures r.Parsed? ==> i < r.next <= |lx.tokens|
  {
    match ItemAt(lx, i)
    case Stuck(e, f) => Stuck(e, f)
    case Parsed(head, _, n) =>
      if !Is(lx, n, Comma) then Stuck([], FaultAt(lx, n))
      else if !Is(lx, n + 1, StringLit) then Stuck([], FaultAt(lx, n + 1))
      else match EntryAttributes(lx, n + 2)
        case Stuck(e, f) => Stuck(e, f)
        case Parsed(attrs, e, m) =>
          EndEntry(lx, e + [TypeEntry(head.key, head.value, lx.tokens[n + 1], attrs)], m)
  }

  /** `function: IDENTIFIER COLON STRING params ARROW IDENTIFIER COLON STRING attributes`,
      then NEWLINE. The `params` action runs as soon as its `)` is read. */
  function FunctionLine(lx: Lexed, i: nat): (r: Parsed<()>)
    ensures r.Parsed? ==> i < r.next <= |lx.tokens|
  {
    match ItemAt(lx, i)
    case Stuck(e, f) => Stuck(e, f)
    case Parsed(head, _, n) =>
      match Bracketed(lx, n, LParen, RParen, false)
      case Stuck(e, f) => Stuck(e, f)
      case Parsed(params, _, m) => FunctionTail(lx, head, params, m)
  }

  /** A function line after its `)`: `ARROW IDENTIFIER COLON STRING attributes NEWLINE`. */
  function FunctionTail(lx: Lexed, head: Item, params: seq<Item>, m: nat): (r: Parsed<()>)
    ensures r.Parsed? ==> m < r.next <= |lx.tokens|
  {
    var read := [ParamsRead(params)];
    if !Is(lx, m, Arrow) then Stuck(read, FaultAt(lx, m))
    else match ItemAt(lx, m + 1)
      case Stuck(_, f) => Stuck(read, f)
      case Parsed(out, _, k) =>
        match EntryAttributes(lx, k)
        case Stuck(e, f) => Stuck(read + e, f)
        case Parsed(attrs, e, l) =>
          EndEntry(lx, read + e + [FunctionEntry(head.key, head.value, params, out.key, out.value, attrs)], l)
  }

  /** `hierarchy: IDENTIFIER IDENTIFIER IDENTIFIER attributes`, then NEWLINE. */
  function HierarchyLine(lx: Lexed, i: nat): (r: Parsed<()>)
    ensures r.Parsed? ==> i < r.next <= |lx.tokens|
  {
    if !Is(lx, i, Identifier) then Stuck([], FaultAt(lx, i))
    else if !Is(lx, i + 1, Identifier) then Stuck([], FaultAt(lx, i + 1))
    else if !Is(lx, i + 2, Identifier) then Stuck([], FaultAt(lx, i + 2))
    else match EntryAttributes(lx, i + 3)
      case Stuck(e, f) => Stuck(e, f)
      case Parsed(attrs, e, m) =>
        EndEntry(lx, e + [HierarchyEntry(lx.tokens[i], lx.tokens[i + 1], lx.tokens[i + 2], attrs)], m)
  }

  /** An item of a list holds an IDENTIFIER key and a STRING value. */
  predicate Typed(items: seq<Item>) {
    forall k :: 0 <= k < |items| ==> items[k].key.kind == Identifier && items[k].value.kind == StringLit
  }

  /** The attribute actions run for `items`, one per item, in list order. */
  function AttributeReads(items: seq<Item>): (r: seq<Event>)
    ensures |r| == |items|
  {
    if |items| == 0 then [] else [AttributeRead(items[0].key, items[0].value)] + AttributeReads(items[1..])
  }

  /** What a list reads after `acc` ends at its closing token, holds typed items, and in an
      attribute list runs one attribute action per item read. */
  ghost predicate ShapedAfter(lx: Lexed, r: Parsed<seq<Item>>, close: TokenKind, attribute: bool, from: nat) {
    r.Parsed? ==> && from <= |r.value| && 1 <= r.next && Is(lx, r.next - 1, close) && Typed(r.value[from..])
                  && (attribute ==> r.events == AttributeReads(r.value[from..]))
  }

  lemma {:induction false} ListRestShape(lx: Lexed, i: nat, lead: bool, close: TokenKind, attribute: bool, acc: seq<Item>)
    ensures ShapedAfter(lx, ListRest(lx, i, lead, close, attribute, acc), close, attribute, |acc|)
    decreases |lx.tokens| - i
  {
    if Is(lx, i, Comma) && Is(lx, AfterComma(lx, i), Identifier) && ItemAt(lx, AfterComma(lx, i)).Parsed? {
      var item, n := ItemAt(lx, AfterComma(lx, i)).value, ItemAt(lx, AfterComma(lx, i)).next;
      ListRestItem(lx, i, lead, close, attribute, acc);
      ListRestShape(lx, n, lead, close, attribute, acc + [item]);
      ListRestCons(lx, n, ListRest(lx, n, lead, close, attribute, acc + [item]), close, attribute, acc, item);
    } else {
      ListRestOther(lx, i, lead, close, attribute, acc);
    }
  }

  /** A list continues with an item after a comma. */
  lemma ListRestItem(lx: Lexed, i: nat, lead: bool, close: TokenKind, attribute: bool, acc: seq<Item>)
    requires Is(lx, i, Comma) && Is(lx, AfterComma(lx, i), Identifier) && ItemAt(lx, AfterComma(lx, i)).Parsed?
    ensures var it := ItemAt(lx, AfterComma(lx, i));
            ListRest(lx, i, lead, close, attribute, acc)
            == Prepend(ItemActions(lx, it.next, close, attribute, it.value),
                       ListRest(lx, it.next, lead, close, attribute, acc + [it.value]))
  {
  }

  /** Without a further item, a list reads nothing after `acc`. */
  lemma ListRestOther(lx: Lexed, i: nat, lead: bool, close: TokenKind, attribute: bool, acc: seq<Item>)
    requires !(Is(lx, i, Comma) && Is(lx, AfterComma(lx, i), Identifier) && ItemAt(lx, AfterComma(lx, i)).Parsed?)
    ensures ShapedAfter(lx, ListRest(lx, i, lead, close, attribute, acc), close, attribute, |acc|)
  {
    var r := ListRest(lx, i, lead, close, attribute, acc);
    if r.Parsed? {
      assert r.value[|acc|..] == [];
    }
  }

  /** The shape carries over one more item read in front. */
  lemma ListRestCons(lx: Lexed, n: nat, rest: Parsed<seq<Item>>, close: TokenKind, attribute: bool, acc: seq<Item>,
                     item: Item)
    requires item.key.kind == Identifier && item.value.kind == StringLit
    requires rest.Parsed? ==> |rest.value| >= |acc| + 1 && rest.value[..|acc| + 1] == acc + [item]
    requires rest.Parsed? ==> Follows(lx, n, close)
    requires ShapedAfter(lx, rest, close, attribute, |acc| + 1)
    ensures ShapedAfter(lx, Prepend(ItemActions(lx, n, close, attribute, item), rest), close, attribute, |acc|)
  {
    if rest.Parsed? {
      assert ItemActions(lx, n, close, attribute, item) == if attribute then [AttributeRead(item.key, item.value)] else [];
      ListRestStep(rest, acc, item);
    }
  }

  lemma ListRestStep(rest: Parsed<seq<Item>>, acc: seq<Item>, item: Item)
    requires rest.Parsed? && |rest.value| >= |acc| + 1 && rest.value[..|acc| + 1] == acc + [item]
    requires item.key.kind == Identifier && item.value.kind == StringLit
    ensures Typed(rest.value[|acc| + 1..]) ==> Typed(rest.value[|acc|..])
    ensures AttributeReads(rest.value[|acc|..])
            == [AttributeRead(item.key, item.value)] + AttributeReads(rest.value[|acc| + 1..])
  {
    var tail := rest.value[|acc|..];
    assert tail[0] == rest.value[..|acc| + 1][|acc|] == item;
    assert tail[1..] == rest.value[|acc| + 1..];
  }

  /** A bracketed list opens and closes with its brackets, holds typed items and, as an
      attribute list, runs one attribute action per item. */
  lemma BracketedShape(lx: Lexed, i: nat, open: TokenKind, close: TokenKind, attribute: bool)
    ensures var r := Bracketed(lx, i, open, close, attribute);
            r.Parsed? ==> && Is(lx, i, open) && Is(lx, r.next - 1, close) && Typed(r.value)
                          && (attribute ==> r.events == AttributeReads(r.value))
  {
    var r := Bracketed(lx, i, open, close, attribute);
    if r.Parsed? {
      var lead := Is(lx, i + 1, Newline);
      var j := if lead then i + 2 else i + 1;
      if Is(lx, j, Identifier) {
        FirstItemShape(lx, i, open, close, attribute);
      } else {
        assert r == ListRest(lx, j, lead, close, attribute, []);
        ListRestShape(lx, j, lead, close, attribute, []);
        assert r.value[0..] == r.value;
      }
    }
  }

  lemma FirstItemShape(lx: Lexed, i: nat, open: TokenKind, close: TokenKind, attribute: bool)
    requires Is(lx, i, open) && Is(lx, if Is(lx, i + 1, Newline) then i + 2 else i + 1, Identifier)
    ensures var r := Bracketed(lx, i, open, close, attribute);
            r.Parsed? ==> Is(lx, r.next - 1, close) && Typed(r.value)
                          && (attribute ==> r.events == AttributeReads(r.value))
  {
    var r := Bracketed(lx, i, open, close, attribute);
    var lead := Is(lx, i + 1, Newline);
    var j := if lead then i + 2 else i + 1;
    var it := ItemAt(lx, j);
    if r.Parsed? && it.Parsed? {
      var item := it.value;
      var rest := ListRest(lx, it.next, lead, close, attribute, [item]);
      var acts := ItemActions(lx, it.next, close, attribute, item);
      assert r == Prepend(acts, rest);
      ListRestShape(lx, it.next, lead, close, attribute, [item]);
      ListRestCons(lx, it.next, rest, close, attribute, [], item);
      assert r.value[0..] == r.value;
    }
  }

  /** The attributes of an entry: typed items, one attribute action each. */
  lemma EntryAttributesShape(lx: Lexed, i: nat)
    ensures var r := EntryAttributes(lx, i);
            r.Parsed? ==> Typed(r.value) && r.events == AttributeReads(r.value)
  {
    if Is(lx, i, Comma) {
      BracketedShape(lx, i + 1, LBrace, RBrace, true);
    }
  }

  /** `evs` ends with the entry action `e`, after one attribute action per attribute of
      `e`. */
  ghost predicate AttributesThen(evs: seq<Event>, e: Event) {
    && (e.TypeEntry? || e.FunctionEntry? || e.HierarchyEntry?)
    && |evs| >= 1 && evs[|evs| - 1] == e && Typed(e.attributes) && evs[..|evs| - 1] == AttributeReads(e.attributes)
  }

  lemma Then(acts: seq<Event>, e: Event)
    requires e.TypeEntry? || e.FunctionEntry? || e.HierarchyEntry?
    requires Typed(e.attributes) && acts == AttributeReads(e.attributes)
    ensures AttributesThen(acts + [e], e)
  {
    assert (acts + [e])[..|acts|] == acts;
  }

  /** A type line `IDENTIFIER COLON STRING COMMA STRING attributes NEWLINE`: its actions are
      the attribute actions, then the type action with the name, label and description
      tokens. */
  ghost predicate TypeLineRead(lx: Lexed, i: nat, evs: seq<Event>, next: nat) {
    && i + 5 < next && Is(lx, next - 1, Newline)
    && Is(lx, i, Identifier) && Is(lx, i + 1, Colon) && Is(lx, i + 2, StringLit)
    && Is(lx, i + 3, Comma) && Is(lx, i + 4, StringLit)
    && |evs| >= 1 && AttributesThen(evs, evs[|evs| - 1])
    && evs[|evs| - 1] == TypeEntry(lx.tokens[i], lx.tokens[i + 2], lx.tokens[i + 4], evs[|evs| - 1].attributes)
  }

  lemma TypeLineShape(lx: Lexed, i: nat)
    ensures var r := TypeLine(lx, i);
            r.Parsed? ==> TypeLineRead(lx, i, r.events, r.next)
  {
    var r := TypeLine(lx, i);
    if r.Parsed? {
      TypeLineParts(lx, i);
      EntryAttributesShape(lx, i + 5);
      TypeLineFrom(lx, i, r, EntryAttributes(lx, i + 5));
    }
  }

  lemma TypeLineParts(lx: Lexed, i: nat)
    ensures var r := TypeLine(lx, i);
            var a := EntryAttributes(lx, i + 5);
            r.Parsed? ==> && Is(lx, i, Identifier) && Is(lx, i + 1, Colon) && Is(lx, i + 2, StringLit)
                          && Is(lx, i + 3, Comma) && Is(lx, i + 4, StringLit) && a.Parsed?
                          && r == EndEntry(lx, a.events + [TypeEntry(lx.tokens[i], lx.tokens[i + 2], lx.tokens[i + 4], a.value)], a.next)
  {
    assert TypeLine(lx, i).Parsed? ==> ItemAt(lx, i).next == i + 3;
  }

  lemma TypeLineFrom(lx: Lexed, i: nat, r: Parsed<()>, a: Parsed<seq<Item>>)
    requires && Is(lx, i, Identifier) && Is(lx, i + 1, Colon) && Is(lx, i + 2, StringLit)
             && Is(lx, i + 3, Comma) && Is(lx, i + 4, StringLit)
    requires a.Parsed? && i + 5 <= a.next && Typed(a.value) && a.events == AttributeReads(a.value)
    requires r.Parsed? && r == EndEntry(lx, a.events + [TypeEntry(lx.tokens[i], lx.tokens[i + 2], lx.tokens[i + 4], a.value)], a.next)
    ensures TypeLineRead(lx, i, r.events, r.next)
  {
    Then(a.events, TypeEntry(lx.tokens[i], lx.tokens[i + 2], lx.tokens[i + 4], a.value));
  }

  /** A function line runs the parameter-list action, its attribute actions, then the
      function action with the name and label tokens, the parameters and the output. */
  ghost predicate FunctionLineRead(lx: Lexed, i: nat, evs: seq<Event>, next: nat) {
    && i + 3 < next && Is(lx, next - 1, Newline)
    && Is(lx, i, Identifier) && Is(lx, i + 1, Colon) && Is(lx, i + 2, StringLit)
    && |evs| >= 2 && var e := evs[|evs| - 1];
    && e.FunctionEntry? && e.name == lx.tokens[i] && e.labelText == lx.tokens[i + 2]
    && e.output.kind == Identifier && e.outputLabel.kind == StringLit
    && evs[0] == ParamsRead(e.params) && Typed(e.params) && AttributesThen(evs[1..], e)
  }

  lemma FunctionLineShape(lx: Lexed, i: nat)
    ensures var r := FunctionLine(lx, i);
            r.Parsed? ==> FunctionLineRead(lx, i, r.events, r.next)
  {
    var r := FunctionLine(lx, i);
    if r.Parsed? {
      FunctionLineParts(lx, i);
      var head := Item(lx.tokens[i], lx.tokens[i + 2]);
      var b := Bracketed(lx, i + 3, LParen, RParen, false);
      FunctionTailParts(lx, head, b.value, b.next);
      var out := ItemAt(lx, b.next + 1);
      var a := EntryAttributes(lx, out.next);
      BracketedShape(lx, i + 3, LParen, RParen, false);
      EntryAttributesShape(lx, out.next);
      FunctionLineFrom(lx, i, r, b.value, a,
                       FunctionEntry(lx.tokens[i], lx.tokens[i + 2], b.value, out.value.key, out.value.value, a.value));
    }
  }

  lemma FunctionLineParts(lx: Lexed, i: nat)
    ensures var r := FunctionLine(lx, i);
            var b := Bracketed(lx, i + 3, LParen, RParen, false);
            r.Parsed? ==> && Is(lx, i, Identifier) && Is(lx, i + 1, Colon) && Is(lx, i + 2, StringLit) && b.Parsed?
                          && r == FunctionTail(lx, Item(lx.tokens[i], lx.tokens[i + 2]), b.value, b.next)
  {
    assert FunctionLine(lx, i).Parsed? ==> ItemAt(lx, i).next == i + 3;
  }

  lemma FunctionTailParts(lx: Lexed, head: Item, params: seq<Item>, m: nat)
    ensures var r := FunctionTail(lx, head, params, m);
            var out := ItemAt(lx, m + 1);
            r.Parsed? ==> && out.Parsed? && out.value.key.kind == Identifier && out.value.value.kind == StringLit
                          && var a := EntryAttributes(lx, out.next);
                          && a.Parsed? && m < a.next
                          && r == EndEntry(lx, [ParamsRead(params)] + a.events
                                                + [FunctionEntry(head.key, head.value, params, out.value.key,
                                                                 out.value.value, a.value)], a.next)
  {
  }

  lemma FunctionLineFrom(lx: Lexed, i: nat, r: Parsed<()>, params: seq<Item>, a: Parsed<seq<Item>>, e: Event)
    requires Is(lx, i, Identifier) && Is(lx, i + 1, Colon) && Is(lx, i + 2, StringLit)
    requires a.Parsed? && i + 3 < a.next && Typed(a.value) && a.events == AttributeReads(a.value) && Typed(params)
    requires e.FunctionEntry? && e.name == lx.tokens[i] && e.labelText == lx.tokens[i + 2] && e.params == params
             && e.output.kind == Identifier && e.outputLabel.kind == StringLit && e.attributes == a.value
    requires r.Parsed? && r == EndEntry(lx, [ParamsRead(params)] + a.events + [e], a.next)
    ensures FunctionLineRead(lx, i, r.events, r.next)
  {
    Then(a.events, e);
    assert r.events[1..] == a.events + [e];
  }

  /** A hierarchy line `IDENTIFIER IDENTIFIER IDENTIFIER attributes NEWLINE` runs its
      attribute actions, then the hierarchy action with the parent, tag and child tokens. */
  ghost predicate HierarchyLineRead(lx: Lexed, i: nat, evs: seq<Event>, next: nat) {
    && i + 3 < next && Is(lx, next - 1, Newline)
    && Is(lx, i, Identifier) && Is(lx, i + 1, Identifier) && Is(lx, i + 2, Identifier)
    && |evs| >= 1 && AttributesThen(evs, evs[|evs| - 1])
    && evs[|evs| - 1] == HierarchyEntry(lx.tokens[i], lx.tokens[i + 1], lx.tokens[i + 2], evs[|evs| - 1].attributes)
  }

  lemma HierarchyLineShape(lx: Lexed, i: nat)
    ensures var r := HierarchyLine(lx, i);
            r.Parsed? ==> HierarchyLineRead(lx, i, r.events, r.next)
  {
    var r := HierarchyLine(lx, i);
    if r.Parsed? {
      HierarchyLineParts(lx, i);
      EntryAttributesShape(lx, i + 3);
      HierarchyLineFrom(lx, i, r, EntryAttributes(lx, i + 3));
    }
  }

  lemma HierarchyLineParts(lx: Lexed, i: nat)
    ensures var r := HierarchyLine(lx, i);
            var a := EntryAttributes(lx, i + 3);
            r.Parsed? ==> && Is(lx, i, Identifier) && Is(lx, i + 1, Identifier) && Is(lx, i + 2, Identifier) && a.Parsed?
                          && r == EndEntry(lx, a.events + [HierarchyEntry(lx.tokens[i], lx.tokens[i + 1], lx.tokens[i + 2], a.value)], a.next)
  {
  }

  lemma HierarchyLineFrom(lx: Lexed, i: nat, r: Parsed<()>, a: Parsed<seq<Item>>)
    requires Is(lx, i, Identifier) && Is(lx, i + 1, Identifier) && Is(lx, i + 2, Identifier)
    requires a.Parsed? && i + 3 <= a.next && Typed(a.value) && a.events == AttributeReads(a.value)
    requires r.Parsed? && r == EndEntry(lx, a.events + [HierarchyEntry(lx.tokens[i], lx.tokens[i + 1], lx.tokens[i + 2], a.value)], a.next)
    ensures HierarchyLineRead(lx, i, r.events, r.next)
  {
    Then(a.events, HierarchyEntry(lx.tokens[i], lx.tokens[i + 1], lx.tokens[i + 2], a.value));
  }

  datatype Block = Types | Functions | Hierarchy

  /** Entries of a block, one per line, for as long as the next token is an IDENTIFIER. */
  function Entries(lx: Lexed, i: nat, block: Block): (r: Parsed<()>)
    requires i <= |lx.tokens|
    ensures r.Parsed? ==> i <= r.next <= |lx.tokens|
    decreases |lx.tokens| - i
  {
    if !Is(lx, i, Identifier) then Parsed((), [], i)
    else
      var line := match block
        case Types => TypeLine(lx, i)
        case Functions => FunctionLine(lx, i)
        case Hierarchy => HierarchyLine(lx, i);
      match line
      case Stuck(e, f) => Stuck(e, f)
      case Parsed(_, e, n) => Prepend(e, Entries(lx, n, block))
  }

  /** The first index at or after `i` that does not hold a NEWLINE. */
  function SkipNewlines(lx: Lexed, i: nat): (j: nat)
    requires i <= |lx.tokens|
    ensures i <= j <= |lx.tokens|
    ensures !Is(lx, j, Newline)
    decreases |lx.tokens| - i
  {
    if Is(lx, i, Newline) then SkipNewlines(lx, i + 1) else i
  }

  /** The body of a block after its header and NEWLINE: `types:` and `functions:` lists
      may open with further NEWLINEs (`NEWLINE type_list`); a `hierarchy:` list may not,
      and needs at least one entry. */
  function BlockBody(lx: Lexed, i: nat, block: Block): (r: Parsed<()>)
    requires i <= |lx.tokens|
    ensures r.Parsed? ==> i <= r.next <= |lx.tokens|
  {
    if block == Hierarchy then
      if !Is(lx, i, Identifier) then Stuck([], FaultAt(lx, i)) else Entries(lx, i, block)
    else
      Entries(lx, SkipNewlines(lx, i), block)
  }

  function MetaFieldOf(k: TokenKind): Option<MetaField> {
    match k
    case MetaVersion => Some(Version)
    case MetaTitle => Some(Title)
    case MetaAuthor => Some(Author)
    case MetaDesc => Some(Description)
    case MetaDate => Some(Date)
    case MetaType => Some(Kind)
    case _ => None
  }

  function BlockOf(k: TokenKind): Option<Block> {
    match k
    case TypesBlock => Some(Types)
    case FunctionsBlock => Some(Functions)
    case HierarchyBlock => Some(Hierarchy)
    case _ => None
  }

  /** A token a statement can start with. */
  predicate StatementStart(k: TokenKind) {
    k == Newline || MetaFieldOf(k).Some? || BlockOf(k).Some?
  }

  /** Whether the parser can use what follows a statement as its lookahead: the start of
      another statement, or the end of input. Reading it is what makes the lexer raise on
      an illegal character. */
  predicate Lookahead(lx: Lexed, j: nat) {
    if j < |lx.tokens| then StatementStart(lx.tokens[j].kind) else lx.error.None?
  }

  /** The statement list from `i`: blank NEWLINE statements, `key: STRING NEWLINE` meta
      statements and blocks, until the end of input. The LALR parser reduces a meta
      statement, and so runs its action, only once it holds the next token as lookahead
      (that state has more than one lookahead, so its reduction is not defaulted): an
      unusable or illegal token there raises before the action runs. */
  function Statements(lx: Lexed, i: nat): (r: Recognised)
    decreases |lx.tokens| - i
  {
    if i >= |lx.tokens| then Recognised([], if lx.error.Some? then Some(IllegalChar(lx.error.value)) else None)
    else
      var t := lx.tokens[i];
      if t.kind == Newline then Statements(lx, i + 1)
      else if MetaFieldOf(t.kind).Some? then
        if !Is(lx, i + 1, StringLit) then Recognised([], Some(FaultAt(lx, i + 1)))
        else if !Is(lx, i + 2, Newline) then Recognised([], Some(FaultAt(lx, i + 2)))
        else if !Lookahead(lx, i + 3) then Recognised([], Some(FaultAt(lx, i + 3)))
        else
          var rest := Statements(lx, i + 3);
          Recognised([MetaStatement(MetaFieldOf(t.kind).value, lx.tokens[i + 1])] + rest.events, rest.fault)
      else if BlockOf(t.kind).Some? then
        if !Is(lx, i + 1, Newline) then Recognised([], Some(FaultAt(lx, i + 1)))
        else match BlockBody(lx, i + 2, BlockOf(t.kind).value)
          case Stuck(e, f) => Recognised(e, Some(f))
          case Parsed(_, e, n) =>
            var rest := Statements(lx, n);
            Recognised(e + rest.events, rest.fault)
      else Recognised([], Some(Unexpected(t)))
  }

  /** The grammar over a whole token stream. */
  function Recognise(lx: Lexed): Recognised {
    Statements(lx, 0)
  }

  /** A meta statement runs its action exactly when the token after its NEWLINE is a usable
      lookahead; otherwise nothing runs and the parser raises at that token. */
  lemma MetaWaitsForLookahead(lx: Lexed, i: nat)
    requires i < |lx.tokens| && MetaFieldOf(lx.tokens[i].kind).Some?
    requires Is(lx, i + 1, StringLit) && Is(lx, i + 2, Newline)
    ensures Lookahead(lx, i + 3) ==>
              |Statements(lx, i).events| >= 1
              && Statements(lx, i).events[0] == MetaStatement(MetaFieldOf(lx.tokens[i].kind).value, lx.tokens[i + 1])
    ensures !Lookahead(lx, i + 3) ==> Statements(lx, i) == Recognised([], Some(FaultAt(lx, i + 3)))
  {
  }

  /** `version: '1'` and a newline, then an illegal character: the lexer raises while the
      parser fetches the lookahead, before the version is stored. */
  lemma MetaBeforeIllegalRunsNothing(v: Token, s: Token, n: Token, c: char)
    requires v.kind == MetaVersion && s.kind == StringLit && n.kind == Newline
    ensures Recognise(Lexed([v, s, n], Some(c))) == Recognised([], Some(IllegalChar(c)))
  {
    assert !Lookahead(Lexed([v, s, n], Some(c)), 3);
  }
}

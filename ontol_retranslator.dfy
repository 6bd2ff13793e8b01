/** The retranslator (src/ontol/retranslator.py): prints an `Ontology` back as Ontol
    text. Metadata lines come first, then the `types:`, `functions:` and `hierarchy:`
    sections, separated by blank lines. Every label, description and attribute value
    is written with Python's `repr`, and every entry may end in an attribute clause
    `, { field: 'value' ... }`.

    Python raises in two places, and the model returns `None` there:
    - `fields()` of an `attributes` value that is the parser's raw dictionary rather than
      a record;
    - `children[0]` of a relationship without children.

    The text is shown to be readable: a reader that splits lines, names and quoted
    literals gets back every name, label, description and attribute value. */
module Retranslator {
  import opened Wrappers
  import opened Text
  import opened OntolAst
  import OntolLexer

  // ---------------------------------------------------------------------------------
  // Python's `repr` of a `str`
  // ---------------------------------------------------------------------------------

  /** Characters `repr` writes as `\xhh`: the C0 controls other than tab, newline and
      carriage return, DEL, the C1 controls, no-break space and soft hyphen. */
  predicate HexEscaped(c: char) {
    (c < ' ' && c != '\t' && c != '\n' && c != '\r')
    || ('\U{007F}' <= c <= '\U{00A0}') || c == '\U{00AD}'
  }

  function HexDigit(n: nat): (c: char)
    requires n < 16
    ensures HexValue(c) == Some(n)
  {
    if n < 10 then ('0' as int + n) as char else ('a' as int + n - 10) as char
  }

  function HexValue(c: char): Option<nat> {
    if '0' <= c <= '9' then Some(c as int - '0' as int)
    else if 'a' <= c <= 'f' then Some(c as int - 'a' as int + 10)
    else None
  }

  /** How `repr` writes one character inside a literal delimited by `q`. */
  function EscapeChar(c: char, q: char): (e: string)
    requires q == '\'' || q == '"'
    ensures |e| >= 1 && '\n' !in e
  {
    if c == '\\' || c == q then ['\\', c]
    else if c == '\n' then "\\n"
    else if c == '\t' then "\\t"
    else if c == '\r' then "\\r"
    else if HexEscaped(c) then ['\\', 'x', HexDigit(c as int / 16), HexDigit(c as int % 16)]
    else [c]
  }

  function Escape(s: string, q: char): (e: string)
    requires q == '\'' || q == '"'
    ensures '\n' !in e
    decreases |s|
  {
    if |s| == 0 then "" else EscapeChar(s[0], q) + Escape(s[1..], q)
  }

  /** The delimiter `repr` picks: double quotes only when the text holds a single quote
      and no double quote. */
  function QuoteFor(s: string): (q: char)
    ensures q == '\'' || q == '"'
  {
    if '\'' in s && '"' !in s then '"' else '\''
  }

  /** `repr(s)` for a `str` whose characters above U+00FF are all printable: the escapes
      `repr` writes for non-printable characters beyond Latin-1 (`\uXXXX`, `\UXXXXXXXX`)
      depend on the Unicode database and are not modelled. */
  function Repr(s: string): (r: string)
    ensures |r| >= 2 && r[0] == r[|r| - 1] && (r[0] == '\'' || r[0] == '"')
    ensures '\n' !in r
  {
    [QuoteFor(s)] + Escape(s, QuoteFor(s)) + [QuoteFor(s)]
  }

  /** Text that `repr` leaves alone: no quote, no backslash, nothing it escapes. */
  predicate PlainText(s: string) {
    forall k :: 0 <= k < |s| ==>
      (s[k] != '\'' && s[k] != '"' && s[k] != '\\'
       && s[k] != '\n' && s[k] != '\t' && s[k] != '\r' && !HexEscaped(s[k]))
  }

  lemma {:induction false} EscapePlain(s: string)
    requires PlainText(s)
    ensures Escape(s, '\'') == s
    decreases |s|
  {
    if |s| > 0 {
      assert PlainText(s[1..]);
      EscapePlain(s[1..]);
      assert [s[0]] + s[1..] == s;
    }
  }

  /** For plain text `repr` only wraps it in single quotes, as in `'Term one'`. */
  lemma ReprPlain(s: string)
    requires PlainText(s)
    ensures Repr(s) == "'" + s + "'"
  {
    EscapePlain(s);
  }

  // ---------------------------------------------------------------------------------
  // Reading a literal back
  // ---------------------------------------------------------------------------------

  /** What a reader finds after an opening delimiter: the decoded text up to the closing
      delimiter and what follows it, or no closing delimiter at all. */
  datatype Scan = Scanned(text: string, rest: string) | Unterminated

  function Prepend(c: char, s: Scan): Scan {
    match s
    case Scanned(text, rest) => Scanned([c] + text, rest)
    case Unterminated => Unterminated
  }

  /** Decodes escapes up to the first unescaped `q`. */
  function ScanBody(t: string, q: char): (r: Scan)
    ensures r.Scanned? ==> |r.rest| < |t|
    decreases |t|
  {
    if |t| == 0 then Unterminated
    else if t[0] == q then Scanned("", t[1..])
    else if t[0] == '\\' && |t| >= 2 then
      if t[1] == 'n' then Prepend('\n', ScanBody(t[2..], q))
      else if t[1] == 't' then Prepend('\t', ScanBody(t[2..], q))
      else if t[1] == 'r' then Prepend('\r', ScanBody(t[2..], q))
      else if t[1] == 'x' && |t| >= 4 && HexValue(t[2]).Some? && HexValue(t[3]).Some? then
        Prepend((HexValue(t[2]).value * 16 + HexValue(t[3]).value) as char, ScanBody(t[4..], q))
      else Prepend(t[1], ScanBody(t[2..], q))
    else Prepend(t[0], ScanBody(t[1..], q))
  }

  /** Reads one quoted literal at the start of `s`. */
  function ScanLiteral(s: string): (r: Scan)
    ensures r.Scanned? ==> |r.rest| < |s|
  {
    if |s| >= 1 && (s[0] == '\'' || s[0] == '"') then ScanBody(s[1..], s[0]) else Unterminated
  }

  /** Reading back one escaped character consumes exactly its escape. */
  lemma ScanEscapedChar(c: char, q: char, more: string)
    requires q == '\'' || q == '"'
    ensures ScanBody(EscapeChar(c, q) + more, q) == Prepend(c, ScanBody(more, q))
  {
    if c == '\\' || c == q || c == '\n' || c == '\t' || c == '\r' {
      ScanPairEscape(c, q, more);
    } else if HexEscaped(c) {
      ScanHexEscape(c, q, more);
    } else {
      var e := EscapeChar(c, q);
      assert e == [c];
      assert (e + more)[1..] == more;
    }
  }

  /** A backslash pair: the escaped backslash or delimiter, or `\n`, `\t`, `\r`. */
  lemma ScanPairEscape(c: char, q: char, more: string)
    requires q == '\'' || q == '"'
    requires c == '\\' || c == q || c == '\n' || c == '\t' || c == '\r'
    ensures ScanBody(EscapeChar(c, q) + more, q) == Prepend(c, ScanBody(more, q))
  {
    var t := EscapeChar(c, q) + more;
    assert |EscapeChar(c, q)| == 2 && t[0] == '\\';
    assert t[2..] == more;
  }

  /** A `\xhh` escape: the two hex digits give the character back. */
  lemma ScanHexEscape(c: char, q: char, more: string)
    requires q == '\'' || q == '"'
    requires HexEscaped(c) && c != '\\' && c != q && c != '\n' && c != '\t' && c != '\r'
    ensures ScanBody(EscapeChar(c, q) + more, q) == Prepend(c, ScanBody(more, q))
  {
    var hi, lo := c as int / 16, c as int % 16;
    var t := EscapeChar(c, q) + more;
    assert EscapeChar(c, q) == ['\\', 'x', HexDigit(hi), HexDigit(lo)];
    assert t[0] == '\\' && t[1] == 'x' && t[2] == HexDigit(hi) && t[3] == HexDigit(lo);
    assert t[4..] == more;
    assert hi * 16 + lo == c as int;
  }

  /** An escaped text followed by its delimiter is read back whole, whatever follows. */
  lemma {:induction false} ScanEscaped(s: string, q: char, rest: string)
    requires q == '\'' || q == '"'
    ensures ScanBody(Escape(s, q) + [q] + rest, q) == Scanned(s, rest)
    decreases |s|
  {
    if |s| == 0 {
      assert Escape(s, q) + [q] + rest == [q] + rest;
      assert ([q] + rest)[1..] == rest;
    } else {
      ScanEscaped(s[1..], q, rest);
      ScanEscapedStep(s, q, rest);
    }
  }

  lemma ScanEscapedStep(s: string, q: char, rest: string)
    requires q == '\'' || q == '"'
    requires |s| > 0 && ScanBody(Escape(s[1..], q) + [q] + rest, q) == Scanned(s[1..], rest)
    ensures ScanBody(Escape(s, q) + [q] + rest, q) == Scanned(s, rest)
  {
    var more := Escape(s[1..], q) + [q] + rest;
    FirstOfFour(EscapeChar(s[0], q), Escape(s[1..], q), [q], rest);
    ScanEscapedChar(s[0], q, more);
    assert [s[0]] + s[1..] == s;
  }

  /** A `repr` literal is read back whole, whatever follows it. */
  lemma ScanRepr(s: string, rest: string)
    ensures ScanLiteral(Repr(s) + rest) == Scanned(s, rest)
  {
    var q := QuoteFor(s);
    assert (Repr(s) + rest)[1..] == Escape(s, q) + [q] + rest;
    ScanEscaped(s, q, rest);
  }

  // ---------------------------------------------------------------------------------
  // Dataclass fields and the attribute clause
  // ---------------------------------------------------------------------------------

  /** One dataclass field as `fields()` lists it: its name and its value, `None` when
      unset. Enum values already appear as their tag text. */
  type Field = (string, Option<string>)

  /** A field name the reader can find again: no colon and no line break. */
  predicate FieldName(s: string) {
    ':' !in s && '\n' !in s
  }

  /** The set fields, in declaration order, with their values. */
  function Present(fields: seq<Field>): (r: seq<(string, string)>)
    ensures |r| <= |fields|
    ensures r == [] <==> forall i :: 0 <= i < |fields| ==> fields[i].1.None?
    decreases |fields|
  {
    if |fields| == 0 then []
    else
      var last := fields[|fields| - 1];
      Present(fields[..|fields| - 1]) + (if last.1.Some? then [(last.0, last.1.value)] else [])
  }

  /** A pair is kept by `Present` exactly when some field carries that name and value. */
  lemma {:induction false} PresentMember(fields: seq<Field>, p: (string, string))
    ensures p in Present(fields)
        <==> exists i :: 0 <= i < |fields| && fields[i].0 == p.0 && fields[i].1 == Some(p.1)
    decreases |fields|
  {
    if |fields| > 0 {
      var init := fields[..|fields| - 1];
      PresentMember(init, p);
      if exists i :: 0 <= i < |fields| && fields[i].0 == p.0 && fields[i].1 == Some(p.1) {
        var i :| 0 <= i < |fields| && fields[i].0 == p.0 && fields[i].1 == Some(p.1);
        if i < |fields| - 1 {
          assert init[i] == fields[i];
        }
      }
      if p in Present(init) {
        var i :| 0 <= i < |init| && init[i].0 == p.0 && init[i].1 == Some(p.1);
        assert fields[i] == init[i];
      }
    }
  }

  /** `f'{name}: {value!r}'` */
  function Entry(p: (string, string)): string {
    p.0 + ": " + Repr(p.1)
  }

  /** Each pair as an entry followed by `end`. */
  function Entries(ps: seq<(string, string)>, end: string): (r: seq<string>)
    ensures |r| == |ps|
    ensures forall k :: 0 <= k < |ps| ==> r[k] == Entry(ps[k]) + end
    decreases |ps|
  {
    if |ps| == 0 then [] else Entries(ps[..|ps| - 1], end) + [Entry(ps[|ps| - 1]) + end]
  }

  function Concat(ss: seq<string>): string
    decreases |ss|
  {
    if |ss| == 0 then "" else Concat(ss[..|ss| - 1]) + ss[|ss| - 1]
  }

  /** `__translate_attributes`: empty when no field is set, otherwise `', { '`, then
      `name: 'value' ` for each set field, then `'}'`. */
  function AttributeClause(fields: seq<Field>): (r: string)
    ensures r == "" <==> forall i :: 0 <= i < |fields| ==> fields[i].1.None?
    ensures r != "" ==> |r| >= 5 && r[..4] == ", { " && r[|r| - 1] == '}'
  {
    var ps := Present(fields);
    if ps == [] then "" else ", { " + Concat(Entries(ps, " ")) + "}"
  }

  function TagText(t: Option<RelationshipType>): Option<string> {
    match t
    case None => None
    case Some(v) => Some(v.Value())
  }

  function DirectionText(d: Option<RelationshipDirection>): Option<string> {
    match d
    case None => None
    case Some(v) => Some(v.Value())
  }

  function TermAttributeFields(a: TermAttributes): (r: seq<Field>)
    ensures forall i :: 0 <= i < |r| ==> FieldName(r[i].0)
  {
    [("color", a.color), ("note", a.note)]
  }

  function FunctionAttributeFields(a: FunctionAttributes): (r: seq<Field>)
    ensures forall i :: 0 <= i < |r| ==> FieldName(r[i].0)
  {
    [("color", a.color), ("colorArrow", a.colorArrow), ("type", TagText(a.kind)),
     ("inputTitle", a.inputTitle), ("outputTitle", a.outputTitle)]
  }

  function RelationshipAttributeFields(a: RelationshipAttributes): (r: seq<Field>)
    ensures forall i :: 0 <= i < |r| ==> FieldName(r[i].0)
  {
    [("color", a.color), ("direction", DirectionText(a.direction)), ("title", a.title),
     ("rightChar", a.rightChar), ("leftChar", a.leftChar)]
  }

  lemma EntriesSnoc(ps: seq<(string, string)>, p: (string, string), end: string)
    ensures Entries(ps + [p], end) == Entries(ps, end) + [Entry(p) + end]
  {
    assert (ps + [p])[..|ps|] == ps;
  }

  lemma PresentSnoc(fields: seq<Field>, i: nat)
    requires i < |fields|
    ensures Present(fields[..i + 1])
         == Present(fields[..i]) + (if fields[i].1.Some? then [(fields[i].0, fields[i].1.value)] else [])
  {
    assert fields[..i + 1][..i] == fields[..i];
  }

  /** The first loop of `__translate_attributes`: `name: 'value' ` for each set field. */
  method CollectSetFields(fields: seq<Field>) returns (nonNoneFields: seq<string>)
    ensures nonNoneFields == Entries(Present(fields), " ")
  {
    nonNoneFields := [];
    for i := 0 to |fields|
      invariant nonNoneFields == Entries(Present(fields[..i]), " ")
    {
      PresentSnoc(fields, i);
      if fields[i].1.Some? {
        EntriesSnoc(Present(fields[..i]), (fields[i].0, fields[i].1.value), " ");
        nonNoneFields := nonNoneFields + [Entry((fields[i].0, fields[i].1.value)) + " "];
      }
    }
    assert fields[..|fields|] == fields;
  }

  /** The second loop: the collected entries one after another. */
  method ConcatEntries(entries: seq<string>) returns (res: string)
    ensures res == Concat(entries)
  {
    res := "";
    for j := 0 to |entries|
      invariant res == Concat(entries[..j])
    {
      assert entries[..j + 1][..j] == entries[..j];
      res := res + entries[j];
    }
    assert entries[..|entries|] == entries;
  }

  /** `__translate_attributes` as written: one loop collects the set fields, a second
      concatenates them inside the braces. */
  method TranslateAttributes(fields: seq<Field>) returns (res: string)
    ensures res == AttributeClause(fields)
  {
    var nonNoneFields := CollectSetFields(fields);
    res := "";
    if nonNoneFields != [] {
      var body := ConcatEntries(nonNoneFields);
      res := res + ", { " + body + "}";
    }
  }

  // ---------------------------------------------------------------------------------
  // One line per entry
  // ---------------------------------------------------------------------------------

  /** `__translate_term`: `name: 'label', 'description'` and the attribute clause. */
  function TermLine(t: Term): (r: Option<string>)
    ensures r.Some? <==> t.attributes.Record?
  {
    match t.attributes
    case Dict(_) => None
    case Record(a) =>
      Some(t.name + ": " + Repr(t.labelText) + ", " + Repr(t.description)
           + AttributeClause(TermAttributeFields(a)))
  }

  /** `f'{arg.term.name}: {arg.label!r}'` */
  function ArgumentText(a: FunctionArgument): string {
    a.term.name + ": " + Repr(a.labelText)
  }

  function ArgumentTexts(args: seq<FunctionArgument>): (r: seq<string>)
    ensures |r| == |args|
    ensures forall k :: 0 <= k < |args| ==> r[k] == ArgumentText(args[k])
  {
    seq(|args|, k requires 0 <= k < |args| => ArgumentText(args[k]))
  }

  /** The arguments separated by `', '`, with nothing after the last one. */
  function ArgumentList(args: seq<FunctionArgument>): string {
    Join(ArgumentTexts(args), ", ")
  }

  /** `__translate_function`: `name: 'label' (arguments) -> out: 'label'` and the
      attribute clause. */
  function FunctionLine(f: Function): (r: Option<string>)
    ensures r.Some? <==> f.attributes.Record?
  {
    match f.attributes
    case Dict(_) => None
    case Record(a) =>
      Some(f.name + ": " + Repr(f.labelText) + " (" + ArgumentList(f.inputTypes) + ") -> "
           + f.outputType.term.name + ": " + Repr(f.outputType.labelText)
           + AttributeClause(FunctionAttributeFields(a)))
  }

  /** `__translate_hierarchy`: `parent tag child` for the first child only, and the
      attribute clause. */
  function HierarchyLine(r: Relationship): (line: Option<string>)
    ensures line.Some? <==> |r.children| >= 1 && r.attributes.Record?
  {
    if |r.children| == 0 then None
    else
      match r.attributes
      case Dict(_) => None
      case Record(a) =>
        Some(r.parent.name + " " + r.relationship.Value() + " " + r.children[0].name
             + AttributeClause(RelationshipAttributeFields(a)))
  }

  /** One more part joined: the separator goes in only between parts. */
  lemma JoinStep(texts: seq<string>, i: nat, sep: string)
    requires i < |texts|
    ensures Join(texts[..i + 1], sep) == Join(texts[..i], sep) + (if i > 0 then sep else "") + texts[i]
  {
    assert texts[..i + 1] == texts[..i] + [texts[i]];
    if i > 0 {
      JoinAppend(texts[..i], texts[i], sep);
    }
  }

  /** The argument loop of `__translate_function`: each argument, then `', '` unless it
      is the last. */
  method JoinArguments(args: seq<FunctionArgument>) returns (text: string)
    ensures text == ArgumentList(args)
  {
    ghost var texts := ArgumentTexts(args);
    text := "";
    for i := 0 to |args|
      invariant text == Join(texts[..i], ", ") + (if 0 < i < |args| then ", " else "")
    {
      JoinStep(texts, i, ", ");
      text := text + ArgumentText(args[i]);
      if i < |args| - 1 {
        text := text + ", ";
      }
    }
    assert texts[..|args|] == texts;
  }

  /** `__translate_function` as written: the argument loop, then the attribute clause. */
  method TranslateFunction(f: Function) returns (line: Option<string>)
    ensures line == FunctionLine(f)
  {
    var head := f.name + ": " + Repr(f.labelText) + " (";
    var args := JoinArguments(f.inputTypes);
    head := head + args + ") -> " + f.outputType.term.name + ": " + Repr(f.outputType.labelText);
    match f.attributes
    case Dict(_) =>
      line := None;
    case Record(a) =>
      var clause := TranslateAttributes(FunctionAttributeFields(a));
      line := Some(head + clause);
  }

  // ---------------------------------------------------------------------------------
  // The whole document
  // ---------------------------------------------------------------------------------

  /** The lines of a list of entries, or `None` when some entry raises. */
  function EntryLines<T>(xs: seq<T>, line: T -> Option<string>): (r: Option<seq<string>>)
    ensures r.Some? <==> forall k :: 0 <= k < |xs| ==> line(xs[k]).Some?
    ensures r.Some? ==> |r.value| == |xs| && forall k :: 0 <= k < |xs| ==> r.value[k] == line(xs[k]).value
    decreases |xs|
  {
    if |xs| == 0 then Some([])
    else
      var init := EntryLines(xs[..|xs| - 1], line);
      var last := line(xs[|xs| - 1]);
      if init.None? || last.None? then None else Some(init.value + [last.value])
  }

  /** The meta fields in declaration order (`kind` is the source's `type`). */
  function MetaFields(m: Meta): (r: seq<Field>)
    ensures forall i :: 0 <= i < |r| ==> FieldName(r[i].0)
  {
    [("version", m.version), ("title", m.title), ("author", m.author),
     ("description", m.description), ("type", m.kind), ("date", m.date)]
  }

  /** `field: 'value'` for each meta field that is set. */
  function MetaLines(m: Meta): seq<string> {
    Entries(Present(MetaFields(m)), "")
  }

  /** The lines `translate` joins, or `None` when it raises. */
  function DocumentLines(meta: Meta, types: seq<Term>, functions: seq<Function>,
                         hierarchy: seq<Relationship>): Option<seq<string>>
  {
    var t := EntryLines(types, TermLine);
    var f := EntryLines(functions, FunctionLine);
    var h := EntryLines(hierarchy, HierarchyLine);
    if t.None? || f.None? || h.None? then None
    else Some(Sections(MetaLines(meta), t.value, f.value, h.value))
  }

  /** The meta lines, then the three sections, each after a blank line. */
  function Sections(meta: seq<string>, types: seq<string>, functions: seq<string>,
                    hierarchy: seq<string>): seq<string>
  {
    meta + ["", "types:"] + types + ["", "functions:"] + functions + ["", "hierarchy:"] + hierarchy
  }

  /** `translate`: the lines joined by line breaks. */
  function Translation(meta: Meta, types: seq<Term>, functions: seq<Function>,
                       hierarchy: seq<Relationship>): Option<string>
  {
    match DocumentLines(meta, types, functions, hierarchy)
    case None => None
    case Some(lines) => Some(Join(lines, "\n"))
  }

  lemma EntryLinesSnoc<T>(xs: seq<T>, i: nat, line: T -> Option<string>, head: seq<string>)
    requires i < |xs| && EntryLines(xs[..i], line).Some? && line(xs[i]).Some?
    ensures EntryLines(xs[..i + 1], line).Some?
    ensures head + EntryLines(xs[..i + 1], line).value
         == (head + EntryLines(xs[..i], line).value) + [line(xs[i]).value]
  {
    assert xs[..i + 1][..i] == xs[..i];
  }

  lemma AppendEntry(lines: seq<string>, ps: seq<(string, string)>, p: (string, string))
    ensures lines + Entries(ps + [p], "") == (lines + Entries(ps, "")) + [Entry(p)]
  {
    EntriesSnoc(ps, p, "");
    assert Entry(p) + "" == Entry(p);
  }

  /** The meta loop of `translate`: one line per set field. */
  method AppendFieldLines(lines: seq<string>, fields: seq<Field>) returns (r: seq<string>)
    ensures r == lines + Entries(Present(fields), "")
  {
    r := lines;
    for i := 0 to |fields|
      invariant r == lines + Entries(Present(fields[..i]), "")
    {
      PresentSnoc(fields, i);
      if fields[i].1.Some? {
        AppendEntry(lines, Present(fields[..i]), (fields[i].0, fields[i].1.value));
        r := r + [fields[i].0 + ": " + Repr(fields[i].1.value)];
      }
    }
    assert fields[..|fields|] == fields;
  }

  /** The `types:` loop of `translate`. */
  method AppendTermLines(lines: seq<string>, types: seq<Term>) returns (r: Option<seq<string>>)
    ensures r.Some? <==> EntryLines(types, TermLine).Some?
    ensures r.Some? ==> r.value == lines + EntryLines(types, TermLine).value
  {
    var acc := lines;
    for i := 0 to |types|
      invariant EntryLines(types[..i], TermLine).Some?
      invariant acc == lines + EntryLines(types[..i], TermLine).value
    {
      var line := TermLine(types[i]);
      if line.None? {
        return None;
      }
      EntryLinesSnoc(types, i, TermLine, lines);
      acc := acc + [line.value];
    }
    assert types[..|types|] == types;
    return Some(acc);
  }

  /** The `functions:` loop of `translate`. */
  method AppendFunctionLines(lines: seq<string>, functions: seq<Function>) returns (r: Option<seq<string>>)
    ensures r.Some? <==> EntryLines(functions, FunctionLine).Some?
    ensures r.Some? ==> r.value == lines + EntryLines(functions, FunctionLine).value
  {
    var acc := lines;
    for i := 0 to |functions|
      invariant EntryLines(functions[..i], FunctionLine).Some?
      invariant acc == lines + EntryLines(functions[..i], FunctionLine).value
    {
      var line := TranslateFunction(functions[i]);
      if line.None? {
        return None;
      }
      EntryLinesSnoc(functions, i, FunctionLine, lines);
      acc := acc + [line.value];
    }
    assert functions[..|functions|] == functions;
    return Some(acc);
  }

  /** The `hierarchy:` loop of `translate`. */
  method AppendHierarchyLines(lines: seq<string>, hierarchy: seq<Relationship>)
    returns (r: Option<seq<string>>)
    ensures r.Some? <==> EntryLines(hierarchy, HierarchyLine).Some?
    ensures r.Some? ==> r.value == lines + EntryLines(hierarchy, HierarchyLine).value
  {
    var acc := lines;
    for i := 0 to |hierarchy|
      invariant EntryLines(hierarchy[..i], HierarchyLine).Some?
      invariant acc == lines + EntryLines(hierarchy[..i], HierarchyLine).value
    {
      var line := HierarchyLine(hierarchy[i]);
      if line.None? {
        return None;
      }
      EntryLinesSnoc(hierarchy, i, HierarchyLine, lines);
      acc := acc + [line.value];
    }
    assert hierarchy[..|hierarchy|] == hierarchy;
    return Some(acc);
  }

  /** `Retranslator.translate`, reading the ontology's current state; `None` stands for
      the exception raised by the first entry that cannot be printed. */
  method Translate(ontology: Ontology) returns (text: Option<string>)
    ensures text == Translation(ontology.meta, ontology.types, ontology.functions, ontology.hierarchy)
  {
    var lines := AppendFieldLines([], MetaFields(ontology.meta));
    assert lines == MetaLines(ontology.meta);
    lines := lines + ["", "types:"];
    var withTypes := AppendTermLines(lines, ontology.types);
    if withTypes.None? {
      return None;
    }
    lines := withTypes.value + ["", "functions:"];
    var withFunctions := AppendFunctionLines(lines, ontology.functions);
    if withFunctions.None? {
      return None;
    }
    lines := withFunctions.value + ["", "hierarchy:"];
    var withHierarchy := AppendHierarchyLines(lines, ontology.hierarchy);
    if withHierarchy.None? {
      return None;
    }
    return Some(Join(withHierarchy.value, "\n"));
  }

  // ---------------------------------------------------------------------------------
  // Reading the text back
  // ---------------------------------------------------------------------------------

  /** A name the lexer reads as one IDENTIFIER: it holds no separator the printed
      text relies on (colon, space, comma, parenthesis, line break). */
  predicate IsName(s: string) {
    |s| >= 1 && forall k :: 0 <= k < |s| ==> OntolLexer.IsIdentChar(s[k])
  }

  /** `s` cut before the first `stop`: the text before it, and the rest from `stop` on
      (empty when `stop` does not occur). */
  function SplitAt(s: string, stop: char): (r: (string, string))
    ensures r.0 + r.1 == s && |r.1| <= |s|
    decreases |s|
  {
    if |s| == 0 || s[0] == stop then ("", s)
    else
      var t := SplitAt(s[1..], stop);
      ([s[0]] + t.0, t.1)
  }

  lemma {:induction false} SplitAtName(name: string, stop: char, rest: string)
    requires stop !in name
    requires rest == "" || rest[0] == stop
    ensures SplitAt(name + rest, stop) == (name, rest)
    decreases |name|
  {
    if |name| > 0 {
      assert (name + rest)[1..] == name[1..] + rest;
      SplitAtName(name[1..], stop, rest);
      assert [name[0]] + name[1..] == name;
    } else {
      assert name + rest == rest;
    }
  }

  /** Reads `name: 'value'` from a whole line. */
  function ReadField(line: string): Option<(string, string)> {
    var (name, r1) := SplitAt(line, ':');
    if |r1| >= 2 && r1[..2] == ": " then
      match ScanLiteral(r1[2..])
      case Unterminated => None
      case Scanned(value, rest) => if rest == "" then Some((name, value)) else None
    else None
  }

  lemma ReadEntry(p: (string, string), rest: string)
    requires FieldName(p.0)
    ensures SplitAt(Entry(p) + rest, ':') == (p.0, ": " + Repr(p.1) + rest)
    ensures (": " + Repr(p.1) + rest)[2..] == Repr(p.1) + rest
    ensures ScanLiteral(Repr(p.1) + rest) == Scanned(p.1, rest)
  {
    assert Entry(p) + rest == p.0 + (": " + Repr(p.1) + rest);
    SplitAtName(p.0, ':', ": " + Repr(p.1) + rest);
    ScanRepr(p.1, rest);
  }

  lemma ReadFieldOfEntry(p: (string, string))
    requires FieldName(p.0)
    ensures ReadField(Entry(p)) == Some(p)
  {
    ReadEntry(p, "");
    assert Entry(p) + "" == Entry(p);
    assert Repr(p.1) + "" == Repr(p.1);
  }

  lemma {:induction false} PresentFieldNames(fields: seq<Field>)
    requires forall i :: 0 <= i < |fields| ==> FieldName(fields[i].0)
    ensures forall k :: 0 <= k < |Present(fields)| ==> FieldName(Present(fields)[k].0)
    decreases |fields|
  {
    if |fields| > 0 {
      PresentFieldNames(fields[..|fields| - 1]);
    }
  }

  /** Each meta line reads back as the next set field, name and value, in declaration
      order: with `PresentMember`, a line appears for exactly the fields that are set. */
  lemma MetaLinesReadBack(m: Meta)
    ensures |MetaLines(m)| == |Present(MetaFields(m))|
    ensures forall k :: 0 <= k < |MetaLines(m)| ==> ReadField(MetaLines(m)[k]) == Some(Present(MetaFields(m))[k])
  {
    var ps := Present(MetaFields(m));
    PresentFieldNames(MetaFields(m));
    forall k | 0 <= k < |ps|
      ensures ReadField(MetaLines(m)[k]) == Some(ps[k])
    {
      assert MetaLines(m)[k] == Entry(ps[k]) + "";
      assert Entry(ps[k]) + "" == Entry(ps[k]);
      ReadFieldOfEntry(ps[k]);
    }
  }

  /** With every field set, the meta block is six lines: version, title, author,
      description, type and date, in that order. */
  lemma MetaLinesAllSet(m: Meta)
    requires m.version.Some? && m.title.Some? && m.author.Some?
    requires m.description.Some? && m.kind.Some? && m.date.Some?
    ensures Present(MetaFields(m))
         == [("version", m.version.value), ("title", m.title.value), ("author", m.author.value),
             ("description", m.description.value), ("type", m.kind.value), ("date", m.date.value)]
  {
    PresentAllSet(MetaFields(m));
  }

  /** When every field is set, `Present` keeps them all, in order. */
  lemma {:induction false} PresentAllSet(fields: seq<Field>)
    requires forall i :: 0 <= i < |fields| ==> fields[i].1.Some?
    ensures |Present(fields)| == |fields|
    ensures forall i :: 0 <= i < |fields| ==> Present(fields)[i] == (fields[i].0, fields[i].1.value)
    decreases |fields|
  {
    if |fields| > 0 {
      PresentAllSet(fields[..|fields| - 1]);
    }
  }

  /** Reads the entries of an attribute clause after its opening `', { '`. */
  function ReadEntries(s: string): Option<seq<(string, string)>>
    decreases |s|
  {
    if s == "}" then Some([])
    else
      var (name, r1) := SplitAt(s, ':');
      if |r1| >= 2 && r1[..2] == ": " then
        match ScanLiteral(r1[2..])
        case Unterminated => None
        case Scanned(value, r2) =>
          if |r2| >= 1 && r2[0] == ' ' then
            match ReadEntries(r2[1..])
            case None => None
            case Some(more) => Some([(name, value)] + more)
          else None
      else None
  }

  /** Reads an attribute clause: nothing, or `', { '`, entries and `'}'`. */
  function ReadClause(s: string): Option<seq<(string, string)>> {
    if s == "" then Some([])
    else if |s| >= 4 && s[..4] == ", { " then ReadEntries(s[4..])
    else None
  }

  lemma {:induction false} ConcatFront(ss: seq<string>)
    requires |ss| >= 1
    ensures Concat(ss) == ss[0] + Concat(ss[1..])
    decreases |ss|
  {
    var n := |ss|;
    if n == 1 {
      assert ss[..0] == [];
      assert ss[1..] == [];
    } else {
      var init := ss[..n - 1];
      ConcatFront(init);
      assert init[1..] == ss[1..][..n - 2];
      calc {
        Concat(ss);
        Concat(init) + ss[n - 1];
        (ss[0] + Concat(ss[1..][..n - 2])) + ss[n - 1];
        ss[0] + (Concat(ss[1..][..n - 2]) + ss[1..][n - 2]);
        ss[0] + Concat(ss[1..]);
      }
    }
  }

  lemma ReadEntriesStep(p: (string, string), tail: string)
    requires FieldName(p.0)
    ensures ReadEntries(Entry(p) + (" " + tail))
         == (match ReadEntries(tail) case None => None case Some(more) => Some([p] + more))
  {
    var s := Entry(p) + (" " + tail);
    ReadEntry(p, " " + tail);
    assert |s| > 1;
    var r1 := ": " + Repr(p.1) + (" " + tail);
    assert r1[..2] == ": ";
    assert (" " + tail)[1..] == tail;
  }

  lemma Regroup(a: string, b: string, c: string, d: string)
    ensures (a + b) + c + d == a + (b + (c + d))
  {
  }

  lemma {:induction false} ReadEntriesBack(ps: seq<(string, string)>)
    requires forall k :: 0 <= k < |ps| ==> FieldName(ps[k].0)
    ensures ReadEntries(Concat(Entries(ps, " ")) + "}") == Some(ps)
    decreases |ps|
  {
    if |ps| == 0 {
      assert Concat(Entries(ps, " ")) + "}" == "}";
    } else {
      ReadEntriesBack(ps[1..]);
      ReadEntriesBackStep(ps);
    }
  }

  lemma ReadEntriesBackStep(ps: seq<(string, string)>)
    requires |ps| > 0 && FieldName(ps[0].0)
    requires ReadEntries(Concat(Entries(ps[1..], " ")) + "}") == Some(ps[1..])
    ensures ReadEntries(Concat(Entries(ps, " ")) + "}") == Some(ps)
  {
    var rest := Concat(Entries(ps[1..], " "));
    EntriesFront(ps);
    Regroup(Entry(ps[0]), " ", rest, "}");
    ReadEntriesStep(ps[0], rest + "}");
    assert [ps[0]] + ps[1..] == ps;
  }

  /** The concatenated entries: the first, then the others. */
  lemma EntriesFront(ps: seq<(string, string)>)
    requires |ps| > 0
    ensures Concat(Entries(ps, " ")) == Entry(ps[0]) + " " + Concat(Entries(ps[1..], " "))
  {
    var es := Entries(ps, " ");
    var tail := Entries(ps[1..], " ");
    assert es[1..] == tail by {
      assert |es[1..]| == |tail|;
      forall k | 0 <= k < |tail|
        ensures es[1..][k] == tail[k]
      {
        assert ps[1..][k] == ps[k + 1];
      }
    }
    ConcatFront(es);
  }

  /** An attribute clause reads back as the set fields with their values, in order. */
  lemma ClauseReadBack(fields: seq<Field>)
    requires forall i :: 0 <= i < |fields| ==> FieldName(fields[i].0)
    ensures ReadClause(AttributeClause(fields)) == Some(Present(fields))
  {
    var ps := Present(fields);
    PresentFieldNames(fields);
    if ps != [] {
      var body := Concat(Entries(ps, " "));
      Braced(body);
      ReadEntriesBack(ps);
    }
  }

  lemma Braced(body: string)
    ensures (", { " + body + "}")[..4] == ", { "
    ensures (", { " + body + "}")[4..] == body + "}"
    ensures ", { " + body + "}" != ""
  {
  }

  lemma NameHasNoSeparator(s: string)
    requires IsName(s)
    ensures ':' !in s && ' ' !in s && ',' !in s && '\n' !in s && ')' !in s
  {
    forall k | 0 <= k < |s|
      ensures s[k] != ':' && s[k] != ' ' && s[k] != ',' && s[k] != '\n' && s[k] != ')'
    {
      assert OntolLexer.IsIdentChar(s[k]);
    }
  }

  /** What a term line holds. */
  datatype TermParts = TermParts(name: string, labelText: string, description: string, clause: string)

  /** Reads `name: 'label', 'description'` and leaves the attribute clause as it is. */
  function ReadTermLine(line: string): Option<TermParts> {
    var (name, r1) := SplitAt(line, ':');
    if |r1| >= 2 && r1[..2] == ": " then
      match ScanLiteral(r1[2..])
      case Unterminated => None
      case Scanned(labelText, r2) =>
        if |r2| >= 2 && r2[..2] == ", " then
          match ScanLiteral(r2[2..])
          case Unterminated => None
          case Scanned(description, clause) => Some(TermParts(name, labelText, description, clause))
        else None
    else None
  }

  /** `name: 'value'` followed by anything: the name, then the value, are read back. */
  lemma ReadNamed(name: string, value: string, after: string)
    requires IsName(name)
    ensures SplitAt(name + ": " + Repr(value) + after, ':') == (name, ": " + Repr(value) + after)
    ensures (": " + Repr(value) + after)[..2] == ": "
    ensures (": " + Repr(value) + after)[2..] == Repr(value) + after
    ensures ScanLiteral(Repr(value) + after) == Scanned(value, after)
  {
    NameHasNoSeparator(name);
    assert name + ": " + Repr(value) + after == name + (": " + Repr(value) + after);
    SplitAtName(name, ':', ": " + Repr(value) + after);
    ScanRepr(value, after);
  }

  /** A literal after a fixed separator is read back. */
  lemma ReadAfter(sep: string, value: string, after: string)
    ensures (sep + Repr(value) + after)[..|sep|] == sep
    ensures (sep + Repr(value) + after)[|sep|..] == Repr(value) + after
    ensures ScanLiteral(Repr(value) + after) == Scanned(value, after)
  {
    ScanRepr(value, after);
  }

  /** A term line gives back the term's name, label and description, and its clause
      (which `ClauseReadBack` reads further). */
  lemma TermLineReadBack(t: Term)
    requires IsName(t.name) && t.attributes.Record?
    ensures ReadTermLine(TermLine(t).value)
         == Some(TermParts(t.name, t.labelText, t.description, AttributeClause(TermAttributeFields(t.attributes.fields))))
  {
    var clause := AttributeClause(TermAttributeFields(t.attributes.fields));
    var r2 := ", " + Repr(t.description) + clause;
    assert TermLine(t).value == t.name + ": " + Repr(t.labelText) + r2;
    ReadNamed(t.name, t.labelText, r2);
    ReadAfter(", ", t.description, clause);
  }

  /** What a function line holds; `inputs` are (term name, label) pairs. */
  datatype FunctionParts = FunctionParts(
    name: string, labelText: string, inputs: seq<(string, string)>,
    outputName: string, outputLabel: string, clause: string)

  /** The outcome of reading an argument list: the arguments and what follows `)`. */
  datatype ArgumentsScan = ArgumentsRead(args: seq<(string, string)>, rest: string) | Malformed

  /** Reads `name: 'label'` arguments separated by `', '` up to the closing `)`. */
  function ReadArgumentList(s: string): (r: ArgumentsScan)
    ensures r.ArgumentsRead? ==> |r.rest| < |s|
    decreases |s|
  {
    var (name, r1) := SplitAt(s, ':');
    if |r1| >= 2 && r1[..2] == ": " then
      match ScanLiteral(r1[2..])
      case Unterminated => Malformed
      case Scanned(labelText, r2) =>
        if |r2| >= 2 && r2[..2] == ", " then
          match ReadArgumentList(r2[2..])
          case Malformed => Malformed
          case ArgumentsRead(more, rest) => ArgumentsRead([(name, labelText)] + more, rest)
        else if |r2| >= 1 && r2[0] == ')' then ArgumentsRead([(name, labelText)], r2[1..])
        else Malformed
    else Malformed
  }

  /** Reads what follows the opening `(`: `)` at once for no arguments. */
  function ReadArguments(s: string): (r: ArgumentsScan)
    ensures r.ArgumentsRead? ==> |r.rest| < |s|
  {
    if |s| >= 1 && s[0] == ')' then ArgumentsRead([], s[1..]) else ReadArgumentList(s)
  }

  function ReadFunctionLine(line: string): Option<FunctionParts> {
    var (name, r1) := SplitAt(line, ':');
    if |r1| >= 2 && r1[..2] == ": " then
      match ScanLiteral(r1[2..])
      case Unterminated => None
      case Scanned(labelText, r2) =>
        if |r2| >= 2 && r2[..2] == " (" then
          match ReadArguments(r2[2..])
          case Malformed => None
          case ArgumentsRead(inputs, r3) =>
            if |r3| >= 4 && r3[..4] == " -> " then
              var (outputName, r4) := SplitAt(r3[4..], ':');
              if |r4| >= 2 && r4[..2] == ": " then
                match ScanLiteral(r4[2..])
                case Unterminated => None
                case Scanned(outputLabel, clause) =>
                  Some(FunctionParts(name, labelText, inputs, outputName, outputLabel, clause))
              else None
            else None
        else None
    else None
  }

  /** The (term name, label) pair of each argument. */
  function Pairs(args: seq<FunctionArgument>): (r: seq<(string, string)>)
    ensures |r| == |args|
    ensures forall k :: 0 <= k < |args| ==> r[k] == (args[k].term.name, args[k].labelText)
  {
    seq(|args|, k requires 0 <= k < |args| => (args[k].term.name, args[k].labelText))
  }

  predicate ArgumentNames(args: seq<FunctionArgument>) {
    forall k :: 0 <= k < |args| ==> IsName(args[k].term.name)
  }

  lemma ArgumentListFront(args: seq<FunctionArgument>, rest: string)
    requires |args| >= 2
    ensures ArgumentList(args) + ")" + rest
         == args[0].term.name + ": " + Repr(args[0].labelText) + (", " + (ArgumentList(args[1..]) + ")" + rest))
  {
    var texts := ArgumentTexts(args);
    assert texts[1..] == ArgumentTexts(args[1..]);
    assert ArgumentList(args) == texts[0] + ", " + Join(texts[1..], ", ");
  }

  lemma {:induction false} ReadArgumentListBack(args: seq<FunctionArgument>, rest: string)
    requires |args| >= 1 && ArgumentNames(args)
    ensures ReadArgumentList(ArgumentList(args) + ")" + rest) == ArgumentsRead(Pairs(args), rest)
    decreases |args|
  {
    if |args| == 1 {
      ReadOnlyArgument(args, rest);
    } else {
      ReadArgumentListBack(args[1..], rest);
      ReadFirstArgument(args, rest);
    }
  }

  lemma ReadOnlyArgument(args: seq<FunctionArgument>, rest: string)
    requires |args| == 1 && ArgumentNames(args)
    ensures ReadArgumentList(ArgumentList(args) + ")" + rest) == ArgumentsRead(Pairs(args), rest)
  {
    assert ArgumentList(args) == ArgumentText(args[0]);
    assert ArgumentList(args) + ")" + rest == args[0].term.name + ": " + Repr(args[0].labelText) + (")" + rest);
    ReadLastArgument(args[0].term.name, args[0].labelText, rest);
    assert Pairs(args) == [(args[0].term.name, args[0].labelText)];
  }

  lemma ReadFirstArgument(args: seq<FunctionArgument>, rest: string)
    requires |args| >= 2 && ArgumentNames(args)
    requires ReadArgumentList(ArgumentList(args[1..]) + ")" + rest) == ArgumentsRead(Pairs(args[1..]), rest)
    ensures ReadArgumentList(ArgumentList(args) + ")" + rest) == ArgumentsRead(Pairs(args), rest)
  {
    var tail := ArgumentList(args[1..]) + ")" + rest;
    ArgumentListFront(args, rest);
    ReadNextArgument(args[0].term.name, args[0].labelText, tail, Pairs(args[1..]), rest);
    PairsFront(args);
  }

  lemma PairsFront(args: seq<FunctionArgument>)
    requires |args| >= 1
    ensures Pairs(args) == [(args[0].term.name, args[0].labelText)] + Pairs(args[1..])
  {
  }

  /** The last argument, closed by `)`. */
  lemma ReadLastArgument(name: string, value: string, rest: string)
    requires IsName(name)
    ensures ReadArgumentList(name + ": " + Repr(value) + (")" + rest)) == ArgumentsRead([(name, value)], rest)
  {
    ReadNamed(name, value, ")" + rest);
    var after := ")" + rest;
    assert after[0] == ')' && after[1..] == rest;
    assert |after| >= 2 ==> after[..2][0] == ')';
  }

  /** An argument followed by `, ` and the arguments after it. */
  lemma ReadNextArgument(name: string, value: string, tail: string, more: seq<(string, string)>, rest: string)
    requires IsName(name)
    requires ReadArgumentList(tail) == ArgumentsRead(more, rest)
    ensures ReadArgumentList(name + ": " + Repr(value) + (", " + tail)) == ArgumentsRead([(name, value)] + more, rest)
  {
    ReadNamed(name, value, ", " + tail);
    assert (", " + tail)[2..] == tail;
  }

  lemma ReadArgumentsBack(args: seq<FunctionArgument>, rest: string)
    requires ArgumentNames(args)
    ensures ReadArguments(ArgumentList(args) + ")" + rest) == ArgumentsRead(Pairs(args), rest)
  {
    if |args| == 0 {
      assert ArgumentList(args) + ")" + rest == ")" + rest;
      assert (")" + rest)[1..] == rest;
    } else {
      NameHasNoSeparator(args[0].term.name);
      assert ArgumentList(args)[0] == args[0].term.name[0] by {
        if |args| == 1 {
        } else {
          assert ArgumentList(args) == ArgumentTexts(args)[0] + ", " + Join(ArgumentTexts(args)[1..], ", ");
        }
      }
      ReadArgumentListBack(args, rest);
    }
  }

  /** A function line gives back the function's name and label, every argument's term
      name and label in order, the output's term name and label, and the clause. */
  lemma FunctionLineReadBack(f: Function)
    requires IsName(f.name) && ArgumentNames(f.inputTypes) && IsName(f.outputType.term.name)
    requires f.attributes.Record?
    ensures ReadFunctionLine(FunctionLine(f).value)
         == Some(FunctionParts(f.name, f.labelText, Pairs(f.inputTypes), f.outputType.term.name,
                               f.outputType.labelText, AttributeClause(FunctionAttributeFields(f.attributes.fields))))
  {
    var clause := AttributeClause(FunctionAttributeFields(f.attributes.fields));
    var out := f.outputType;
    var r4 := out.term.name + ": " + Repr(out.labelText) + clause;
    var r3 := " -> " + r4;
    var args := ArgumentList(f.inputTypes);
    var r2 := " (" + (args + ")" + r3);
    FunctionLineShape(f);
    ReadNamed(f.name, f.labelText, r2);
    assert r2[..2] == " (" && r2[2..] == args + ")" + r3;
    ReadArgumentsBack(f.inputTypes, r3);
    assert r3[..4] == " -> " && r3[4..] == r4;
    ReadNamed(out.term.name, out.labelText, clause);
  }

  lemma FunctionLineShape(f: Function)
    requires f.attributes.Record?
    ensures FunctionLine(f).value
         == f.name + ": " + Repr(f.labelText)
            + (" (" + (ArgumentList(f.inputTypes) + ")"
               + (" -> " + (f.outputType.term.name + ": " + Repr(f.outputType.labelText)
                            + AttributeClause(FunctionAttributeFields(f.attributes.fields))))))
  {
    FunctionLineNest(f.name, Repr(f.labelText), ArgumentList(f.inputTypes), f.outputType.term.name,
                     Repr(f.outputType.labelText), AttributeClause(FunctionAttributeFields(f.attributes.fields)));
  }

  lemma FunctionLineNest(name: string, labelText: string, args: string, output: string, outputLabel: string,
                         clause: string)
    ensures name + ": " + labelText + " (" + args + ") -> " + output + ": " + outputLabel + clause
         == name + ": " + labelText + (" (" + (args + ")" + (" -> " + (output + ": " + outputLabel + clause))))
  {
    assert ") -> " == ")" + " -> ";
  }

  /** What a hierarchy line holds. */
  datatype HierarchyParts = HierarchyParts(parent: string, relationship: RelationshipType, child: string, clause: string)

  /** Reads `parent tag child` and leaves the attribute clause as it is. */
  function ReadHierarchyLine(line: string): Option<HierarchyParts> {
    var (parent, r1) := SplitAt(line, ' ');
    if |r1| == 0 then None
    else
      var (tag, r2) := SplitAt(r1[1..], ' ');
      if |r2| == 0 then None
      else
        match TypeFromStr(tag)
        case None => None
        case Some(relationship) =>
          var (child, clause) := SplitAt(r2[1..], ',');
          Some(HierarchyParts(parent, relationship, child, clause))
  }

  lemma TagHasNoSpace(t: RelationshipType)
    ensures ' ' !in t.Value() && '\n' !in t.Value()
  {
    var v := t.Value();
    forall i | 0 <= i < |v|
      ensures 'a' <= v[i] <= 'z' || 'A' <= v[i] <= 'Z'
    {
    }
  }

  /** A hierarchy line gives back the parent's name, the relationship tag, the first
      child's name and the clause. */
  lemma HierarchyLineReadBack(r: Relationship)
    requires |r.children| >= 1 && r.attributes.Record?
    requires IsName(r.parent.name) && IsName(r.children[0].name)
    ensures ReadHierarchyLine(HierarchyLine(r).value)
         == Some(HierarchyParts(r.parent.name, r.relationship, r.children[0].name,
                                AttributeClause(RelationshipAttributeFields(r.attributes.fields))))
  {
    var clause := AttributeClause(RelationshipAttributeFields(r.attributes.fields));
    var child := r.children[0].name;
    var tag := r.relationship.Value();
    var r2 := " " + (child + clause);
    var r1 := " " + (tag + r2);
    assert HierarchyLine(r).value == r.parent.name + r1;
    NameHasNoSeparator(r.parent.name);
    NameHasNoSeparator(child);
    TagHasNoSpace(r.relationship);
    SplitAtName(r.parent.name, ' ', r1);
    assert r1[1..] == tag + r2;
    SplitAtName(tag, ' ', r2);
    assert r2[1..] == child + clause;
    TypeFromStrInverse(r.relationship, tag);
    SplitAtName(child, ',', clause);
  }

  // ---------------------------------------------------------------------------------
  // The document's lines
  // ---------------------------------------------------------------------------------

  /** `translate` succeeds exactly when every attribute value is a record and every
      relationship has a child. */
  lemma TranslationDefined(meta: Meta, types: seq<Term>, functions: seq<Function>, hierarchy: seq<Relationship>)
    ensures Translation(meta, types, functions, hierarchy).Some?
        <==> ((forall k :: 0 <= k < |types| ==> types[k].attributes.Record?)
              && (forall k :: 0 <= k < |functions| ==> functions[k].attributes.Record?)
              && (forall k :: 0 <= k < |hierarchy| ==>
                    |hierarchy[k].children| >= 1 && hierarchy[k].attributes.Record?))
  {
    TranslationParts(meta, types, functions, hierarchy);
    TermLinesDefined(types);
    FunctionLinesDefined(functions);
    HierarchyLinesDefined(hierarchy);
  }

  lemma TranslationParts(meta: Meta, types: seq<Term>, functions: seq<Function>, hierarchy: seq<Relationship>)
    ensures Translation(meta, types, functions, hierarchy).Some?
        <==> EntryLines(types, TermLine).Some? && EntryLines(functions, FunctionLine).Some?
             && EntryLines(hierarchy, HierarchyLine).Some?
  {
  }

  lemma TermLinesDefined(types: seq<Term>)
    ensures EntryLines(types, TermLine).Some? <==> forall k :: 0 <= k < |types| ==> types[k].attributes.Record?
  {
    assert EntryLines(types, TermLine).Some? <==> forall k :: 0 <= k < |types| ==> TermLine(types[k]).Some?;
  }

  lemma FunctionLinesDefined(functions: seq<Function>)
    ensures EntryLines(functions, FunctionLine).Some?
        <==> forall k :: 0 <= k < |functions| ==> functions[k].attributes.Record?
  {
    assert EntryLines(functions, FunctionLine).Some?
       <==> forall k :: 0 <= k < |functions| ==> FunctionLine(functions[k]).Some?;
  }

  lemma HierarchyLinesDefined(hierarchy: seq<Relationship>)
    ensures EntryLines(hierarchy, HierarchyLine).Some?
        <==> forall k :: 0 <= k < |hierarchy| ==> |hierarchy[k].children| >= 1 && hierarchy[k].attributes.Record?
  {
    assert EntryLines(hierarchy, HierarchyLine).Some?
       <==> forall k :: 0 <= k < |hierarchy| ==> HierarchyLine(hierarchy[k]).Some?;
  }

  /** Where each line sits: the meta lines, a blank line, `types:` and one line per
      term, a blank line, `functions:` and one line per function, a blank line,
      `hierarchy:` and one line per relationship, each list in its own order. */
  lemma SectionsLayout(meta: seq<string>, types: seq<string>, functions: seq<string>, hierarchy: seq<string>)
    ensures var lines := Sections(meta, types, functions, hierarchy);
      var m := |meta|;
      var t := m + 2 + |types|;
      var f := t + 2 + |functions|;
      && |lines| == f + 2 + |hierarchy|
      && lines[..m] == meta
      && lines[m] == "" && lines[m + 1] == "types:"
      && (forall k :: 0 <= k < |types| ==> lines[m + 2 + k] == types[k])
      && lines[t] == "" && lines[t + 1] == "functions:"
      && (forall k :: 0 <= k < |functions| ==> lines[t + 2 + k] == functions[k])
      && lines[f] == "" && lines[f + 1] == "hierarchy:"
      && (forall k :: 0 <= k < |hierarchy| ==> lines[f + 2 + k] == hierarchy[k])
  {
  }

  lemma SectionsNoBreak(meta: seq<string>, types: seq<string>, functions: seq<string>, hierarchy: seq<string>)
    requires forall k :: 0 <= k < |meta| ==> '\n' !in meta[k]
    requires forall k :: 0 <= k < |types| ==> '\n' !in types[k]
    requires forall k :: 0 <= k < |functions| ==> '\n' !in functions[k]
    requires forall k :: 0 <= k < |hierarchy| ==> '\n' !in hierarchy[k]
    ensures forall k :: 0 <= k < |Sections(meta, types, functions, hierarchy)| ==>
              '\n' !in Sections(meta, types, functions, hierarchy)[k]
  {
  }

  /** The names the lexer would read as identifiers, wherever the printer writes one. */
  predicate Readable(types: seq<Term>, functions: seq<Function>, hierarchy: seq<Relationship>) {
    (forall k :: 0 <= k < |types| ==> IsName(types[k].name))
    && (forall k :: 0 <= k < |functions| ==>
          IsName(functions[k].name) && ArgumentNames(functions[k].inputTypes)
          && IsName(functions[k].outputType.term.name))
    && (forall k :: 0 <= k < |hierarchy| ==>
          IsName(hierarchy[k].parent.name)
          && (|hierarchy[k].children| >= 1 ==> IsName(hierarchy[k].children[0].name)))
  }

  lemma {:induction false} ConcatNoBreak(ss: seq<string>)
    requires forall k :: 0 <= k < |ss| ==> '\n' !in ss[k]
    ensures '\n' !in Concat(ss)
    decreases |ss|
  {
    if |ss| > 0 {
      ConcatNoBreak(ss[..|ss| - 1]);
    }
  }

  lemma ClauseNoBreak(fields: seq<Field>)
    requires forall i :: 0 <= i < |fields| ==> FieldName(fields[i].0)
    ensures '\n' !in AttributeClause(fields)
  {
    var ps := Present(fields);
    PresentFieldNames(fields);
    ConcatNoBreak(Entries(ps, " "));
  }

  lemma TermLineNoBreak(t: Term)
    requires IsName(t.name) && t.attributes.Record?
    ensures '\n' !in TermLine(t).value
  {
    NameHasNoSeparator(t.name);
    ClauseNoBreak(TermAttributeFields(t.attributes.fields));
  }

  lemma FunctionLineNoBreak(g: Function)
    requires IsName(g.name) && ArgumentNames(g.inputTypes) && IsName(g.outputType.term.name)
    requires g.attributes.Record?
    ensures '\n' !in FunctionLine(g).value
  {
    NameHasNoSeparator(g.name);
    NameHasNoSeparator(g.outputType.term.name);
    forall j | 0 <= j < |g.inputTypes|
      ensures '\n' !in ArgumentTexts(g.inputTypes)[j]
    {
      NameHasNoSeparator(g.inputTypes[j].term.name);
    }
    assert '\n' !in Join(ArgumentTexts(g.inputTypes), ", ") by {
      JoinChars(ArgumentTexts(g.inputTypes), ", ", '\n');
    }
    ClauseNoBreak(FunctionAttributeFields(g.attributes.fields));
  }

  lemma HierarchyLineNoBreak(r: Relationship)
    requires IsName(r.parent.name) && |r.children| >= 1 && IsName(r.children[0].name)
    requires r.attributes.Record?
    ensures '\n' !in HierarchyLine(r).value
  {
    NameHasNoSeparator(r.parent.name);
    NameHasNoSeparator(r.children[0].name);
    TagHasNoSpace(r.relationship);
    ClauseNoBreak(RelationshipAttributeFields(r.attributes.fields));
  }

  lemma MetaLinesNoBreak(meta: Meta)
    ensures forall k :: 0 <= k < |MetaLines(meta)| ==> '\n' !in MetaLines(meta)[k]
  {
    PresentFieldNames(MetaFields(meta));
  }

  lemma LinesHaveNoBreak(meta: Meta, types: seq<Term>, functions: seq<Function>, hierarchy: seq<Relationship>)
    requires Readable(types, functions, hierarchy)
    requires DocumentLines(meta, types, functions, hierarchy).Some?
    ensures forall k :: 0 <= k < |DocumentLines(meta, types, functions, hierarchy).value| ==>
              '\n' !in DocumentLines(meta, types, functions, hierarchy).value[k]
  {
    var t := EntryLines(types, TermLine).value;
    var f := EntryLines(functions, FunctionLine).value;
    var h := EntryLines(hierarchy, HierarchyLine).value;
    forall k | 0 <= k < |types|
      ensures '\n' !in t[k]
    {
      TermLineNoBreak(types[k]);
    }
    forall k | 0 <= k < |functions|
      ensures '\n' !in f[k]
    {
      FunctionLineNoBreak(functions[k]);
    }
    forall k | 0 <= k < |hierarchy|
      ensures '\n' !in h[k]
    {
      HierarchyLineNoBreak(hierarchy[k]);
    }
    MetaLinesNoBreak(meta);
    SectionsNoBreak(MetaLines(meta), t, f, h);
  }

  /** Splitting the printed text at line breaks gives back exactly the lines that
      were joined. */
  lemma TranslationLines(meta: Meta, types: seq<Term>, functions: seq<Function>, hierarchy: seq<Relationship>)
    requires Readable(types, functions, hierarchy)
    requires Translation(meta, types, functions, hierarchy).Some?
    ensures Split(Translation(meta, types, functions, hierarchy).value, '\n')
         == DocumentLines(meta, types, functions, hierarchy).value
  {
    var lines := DocumentLines(meta, types, functions, hierarchy).value;
    LinesHaveNoBreak(meta, types, functions, hierarchy);
    assert "\n" == ['\n'];
    SplitJoin(lines, '\n');
  }
}

/** The PlantUML generator (src/ontol/plantuml.py, class `PlantUML`): the document
    `_generate_base` builds from an ontology, the pieces it is made of (rectangles, notes,
    relationship lines with their arrow glyphs, the synthetic node and edges of each
    function), and the 6-bit text encoding used to put a compressed document in a URL.

    The generator reads attribute records (`term.attributes.color`, ...) and the fields
    it dereferences without a check. The `...Drawable` predicates below say what it needs;
    on any other ontology, including one whose attributes are the parser's raw
    dictionaries, `_generate_base` raises, and `DrawFault` gives the class of the first
    exception it meets. */
module PlantUml {
  import opened Wrappers
  import opened Text
  import opened OntolAst

  // ---------------------------------------------------------------------------------
  // What the generator can draw
  // ---------------------------------------------------------------------------------

  predicate TermDrawable(t: Term) {
    t.attributes.Record?
  }

  /** A relationship's colour and direction are read unchecked, and so is its first child. */
  predicate RelationshipDrawable(r: Relationship) {
    && r.attributes.Record?
    && r.attributes.fields.color.Some?
    && r.attributes.fields.direction.Some?
    && |r.children| >= 1
  }

  /** A function's edges need its relationship type and arrow colour, and every term it
      mentions must be found in `types`. */
  predicate FunctionDrawable(f: Function, types: seq<Term>) {
    && f.attributes.Record?
    && f.attributes.fields.kind.Some?
    && f.attributes.fields.colorArrow.Some?
    && AllDeclared(types, InputNames(f.inputTypes))
    && FindTerm(types, f.outputType.term.name).Some?
  }

  predicate FunctionsDrawable(functions: seq<Function>, types: seq<Term>) {
    forall k :: 0 <= k < |functions| ==> FunctionDrawable(functions[k], types)
  }

  predicate OntologyDrawable(types: seq<Term>, functions: seq<Function>, hierarchy: seq<Relationship>) {
    && (forall k :: 0 <= k < |types| ==> TermDrawable(types[k]))
    && FunctionsDrawable(functions, types)
    && (forall k :: 0 <= k < |hierarchy| ==> RelationshipDrawable(hierarchy[k]))
  }

  // ---------------------------------------------------------------------------------
  // What the generator raises on the rest
  // ---------------------------------------------------------------------------------

  /** The class of the exception `_generate_base` raises on an ontology it cannot draw. */
  datatype Fault = AttributeError | TypeError | KeyError | IndexError

  /** `_generate_rectangle` reads `term.attributes.color`, which a dictionary lacks. */
  function TermFault(t: Term): Option<Fault> {
    if t.attributes.Dict? then Some(AttributeError) else None
  }

  /** `__prepare_function_term` reads `function.attributes.color`. */
  function FunctionTermFault(f: Function): Option<Fault> {
    if f.attributes.Dict? then Some(AttributeError) else None
  }

  /** The edges of a function: `function.attributes.type.value` fails on a dictionary or
      a missing type; the first edge drawn concatenates `color_arrow` (a `TypeError`
      when it is missing); an undeclared input or output term is `None`, whose `name`
      the drawing reads. */
  function EdgeFault(f: Function, types: seq<Term>): Option<Fault> {
    if f.attributes.Dict? || f.attributes.fields.kind.None? then Some(AttributeError)
    else if f.attributes.fields.colorArrow.None? then Some(TypeError)
    else if !AllDeclared(types, InputNames(f.inputTypes)) || FindTerm(types, f.outputType.term.name).None? then
      Some(AttributeError)
    else None
  }

  /** `_generate_base_hierarchy` reads `left_char` (a dictionary lacks it), concatenates
      the colour, looks the direction up in the glyph table, then reads `children[0]`. */
  function RelationshipFault(r: Relationship): Option<Fault> {
    if r.attributes.Dict? then Some(AttributeError)
    else if r.attributes.fields.color.None? then Some(TypeError)
    else if r.attributes.fields.direction.None? then Some(KeyError)
    else if |r.children| == 0 then Some(IndexError)
    else None
  }

  /** The first exception of a run of steps, each of which may raise. */
  function FirstFault(faults: seq<Option<Fault>>): (e: Option<Fault>)
    ensures e.None? <==> forall k :: 0 <= k < |faults| ==> faults[k].None?
    ensures e.Some? ==> exists k :: 0 <= k < |faults| && faults[k] == e
                                    && forall j :: 0 <= j < k ==> faults[j].None?
  {
    if |faults| == 0 then None
    else if faults[0].Some? then faults[0]
    else
      var rest := FirstFault(faults[1..]);
      assert forall k :: 1 <= k < |faults| ==> faults[k] == faults[1..][k - 1];
      rest
  }

  /** The first exception of the terms' rectangles. */
  function TermsFault(types: seq<Term>): (e: Option<Fault>)
    ensures e.None? <==> forall k :: 0 <= k < |types| ==> TermDrawable(types[k])
  {
    var steps := seq(|types|, k requires 0 <= k < |types| => TermFault(types[k]));
    assert forall k :: 0 <= k < |types| ==> steps[k] == TermFault(types[k]);
    FirstFault(steps)
  }

  /** The first exception of the functions' rectangles. */
  function FunctionTermsFault(functions: seq<Function>): (e: Option<Fault>)
    ensures e.None? <==> forall k :: 0 <= k < |functions| ==> functions[k].attributes.Record?
  {
    var steps := seq(|functions|, k requires 0 <= k < |functions| => FunctionTermFault(functions[k]));
    assert forall k :: 0 <= k < |functions| ==> steps[k] == FunctionTermFault(functions[k]);
    FirstFault(steps)
  }

  /** The first exception of the functions' edges. */
  function EdgesFault(functions: seq<Function>, types: seq<Term>): (e: Option<Fault>)
    ensures e.None? <==> FunctionsDrawable(functions, types)
  {
    var steps := seq(|functions|, k requires 0 <= k < |functions| => EdgeFault(functions[k], types));
    assert forall k :: 0 <= k < |functions| ==> steps[k] == EdgeFault(functions[k], types);
    FirstFault(steps)
  }

  /** The first exception of the hierarchy lines. */
  function RelationshipsFault(hierarchy: seq<Relationship>): (e: Option<Fault>)
    ensures e.None? <==> forall k :: 0 <= k < |hierarchy| ==> RelationshipDrawable(hierarchy[k])
  {
    var steps := seq(|hierarchy|, k requires 0 <= k < |hierarchy| => RelationshipFault(hierarchy[k]));
    assert forall k :: 0 <= k < |hierarchy| ==> steps[k] == RelationshipFault(hierarchy[k]);
    FirstFault(steps)
  }

  /** The first of two outcomes that raises. */
  function OrElse(first: Option<Fault>, second: Option<Fault>): Option<Fault> {
    if first.Some? then first else second
  }

  /** The exception `_generate_base` raises, if any: its loops run over the terms, the
      function rectangles, the edges of each function, then the hierarchy. */
  function DrawFault(types: seq<Term>, functions: seq<Function>, hierarchy: seq<Relationship>): Option<Fault> {
    OrElse(TermsFault(types),
      OrElse(FunctionTermsFault(functions),
        OrElse(EdgesFault(functions, types), RelationshipsFault(hierarchy))))
  }

  /** `_generate_base` raises nothing exactly on the ontologies it can draw. */
  lemma DrawFaultNone(types: seq<Term>, functions: seq<Function>, hierarchy: seq<Relationship>)
    ensures DrawFault(types, functions, hierarchy).None? <==> OntologyDrawable(types, functions, hierarchy)
  {
    if EdgesFault(functions, types).None? {
      assert forall k :: 0 <= k < |functions| ==> functions[k].attributes.Record? by {
        forall k | 0 <= k < |functions|
          ensures functions[k].attributes.Record?
        {
          assert FunctionDrawable(functions[k], types);
        }
      }
    }
  }

  /** The parser stores every attribute block as a dictionary, so an ontology it built
      with at least one term cannot be drawn: the first rectangle raises. */
  lemma DictTermRaises(types: seq<Term>, functions: seq<Function>, hierarchy: seq<Relationship>, i: nat)
    requires i < |types| && types[i].attributes.Dict?
    ensures DrawFault(types, functions, hierarchy) == Some(AttributeError)
  {
    var steps := seq(|types|, k requires 0 <= k < |types| => TermFault(types[k]));
    assert steps[i] == Some(AttributeError);
    var e := FirstFault(steps);
    assert TermsFault(types) == e;
    var k :| 0 <= k < |steps| && steps[k] == e && forall j :: 0 <= j < k ==> steps[j].None?;
    assert steps[k] == TermFault(types[k]);
  }

  // ---------------------------------------------------------------------------------
  // Strings as Python formats them
  // ---------------------------------------------------------------------------------

  /** `f'{x}'` for an optional string: `None` prints as "None". */
  function Shown(o: Option<string>): string {
    if o.Some? then o.value else "None"
  }

  /** An optional string that Python treats as true: present and non-empty. */
  predicate Truthy(o: Option<string>) {
    o.Some? && o.value != ""
  }

  /** `s.replace('\\n', '\n')`: each backslash-n pair, left to right, becomes a line break. */
  function UnescapeNewlines(s: string): (r: string)
    ensures |r| <= |s|
    decreases |s|
  {
    if |s| == 0 then ""
    else if |s| >= 2 && s[0] == '\\' && s[1] == 'n' then "\n" + UnescapeNewlines(s[2..])
    else [s[0]] + UnescapeNewlines(s[1..])
  }

  /** The reverse substitution: each line break becomes a backslash-n pair. */
  function EscapeNewlines(s: string): (r: string)
    ensures '\n' !in r
    decreases |s|
  {
    if |s| == 0 then ""
    else if s[0] == '\n' then "\\n" + EscapeNewlines(s[1..])
    else [s[0]] + EscapeNewlines(s[1..])
  }

  /** For note text without line breaks, escaping undoes the substitution: it loses nothing. */
  lemma {:induction false} EscapeUnescape(s: string)
    requires '\n' !in s
    ensures EscapeNewlines(UnescapeNewlines(s)) == s
    decreases |s|
  {
    if |s| >= 2 && s[0] == '\\' && s[1] == 'n' {
      EscapeUnescape(s[2..]);
      assert s == "\\n" + s[2..];
    } else if |s| > 0 {
      EscapeUnescape(s[1..]);
      assert ("" + [s[0]] + UnescapeNewlines(s[1..]))[1..] == UnescapeNewlines(s[1..]);
      assert s == [s[0]] + s[1..];
    }
  }

  /** After the substitution no backslash is followed by an `n`. */
  lemma {:induction false} UnescapeLeavesNoPair(s: string)
    ensures forall k :: 0 <= k < |UnescapeNewlines(s)| - 1 ==>
              !(UnescapeNewlines(s)[k] == '\\' && UnescapeNewlines(s)[k + 1] == 'n')
    decreases |s|
  {
    if |s| >= 2 && s[0] == '\\' && s[1] == 'n' {
      UnescapeLeavesNoPair(s[2..]);
      var r := UnescapeNewlines(s);
      assert forall k :: 1 <= k < |r| ==> r[k] == UnescapeNewlines(s[2..])[k - 1];
    } else if |s| > 0 {
      UnescapeLeavesNoPair(s[1..]);
      var r := UnescapeNewlines(s);
      var rest := UnescapeNewlines(s[1..]);
      assert forall k :: 1 <= k < |r| ==> r[k] == rest[k - 1];
      if |rest| > 0 && s[0] == '\\' {
        if |s| >= 3 && s[1] == '\\' && s[2] == 'n' {
          assert rest[0] == '\n';
        } else {
          assert rest[0] == s[1];
        }
      }
    }
  }

  // ---------------------------------------------------------------------------------
  // Rectangles and notes
  // ---------------------------------------------------------------------------------

  /** `_generate_rectangle`: `rectangle "label`, a `\n(description)` escape only for a
      non-empty description, then `" as name color`. */
  function Rectangle(t: Term): (s: string)
    requires TermDrawable(t)
  {
    "rectangle \"" + t.labelText
    + (if t.description != "" then "\\n(" + t.description + ")" else "")
    + "\" as " + t.name + " " + Shown(t.attributes.fields.color)
  }

  /** The rectangle starts with the label, shows the description only when there is one,
      and ends with the name and colour. */
  lemma RectangleShape(t: Term)
    requires TermDrawable(t)
    ensures var s := Rectangle(t);
            var head := "rectangle \"" + t.labelText;
            var tail := "\" as " + t.name + " " + Shown(t.attributes.fields.color);
            && |s| == |head| + |tail| + (if t.description == "" then 0 else |t.description| + 4)
            && s[..|head|] == head
            && s[|s| - |tail|..] == tail
            && (t.description != "" ==> s[|head|..|s| - |tail|] == "\\n(" + t.description + ")")
  {
  }

  /** `_generate_note`: a note block for a non-empty note, else the empty line. */
  function Note(t: Term): (s: string)
    requires TermDrawable(t)
    ensures s == "" <==> !Truthy(t.attributes.fields.note)
  {
    var note := t.attributes.fields.note;
    if Truthy(note) then "note right of " + t.name + "\n" + UnescapeNewlines(note.value) + "\n    end note"
    else ""
  }

  // ---------------------------------------------------------------------------------
  // Relationship lines
  // ---------------------------------------------------------------------------------

  /** The arrow glyph per relationship type and direction: the table of
      `_generate_base_hierarchy`. */
  function Glyph(t: RelationshipType, d: RelationshipDirection): (g: string)
    ensures |g| >= 3
  {
    match t
    case Dependence => (match d case Forward => "...>" case Backward => "<..." case Bidirectional => "<...>")
    case Association => "---"
    case DirectAssociation => (match d case Forward => "--->" case Backward => "<---" case Bidirectional => "<--->")
    case Inheritance => (match d case Forward => "---|>" case Backward => "<|---" case Bidirectional => "<|---|>")
    case Implementation => (match d case Forward => "...|>" case Backward => "<|..." case Bidirectional => "<|...|>")
    case Aggregation => (match d case Forward => "---o" case Backward => "o---" case Bidirectional => "o---o")
    case Composition => (match d case Forward => "---*" case Backward => "*---" case Bidirectional => "*---*")
  }

  /** Association draws the same line in every direction; every other type draws three
      different arrows. */
  lemma GlyphTable(t: RelationshipType, d: RelationshipDirection, e: RelationshipDirection)
    ensures t == Association ==> Glyph(t, d) == "---"
    ensures t != Association && d != e ==> Glyph(t, d) != Glyph(t, e)
  {
    if t != Association && d != e {
      var g, h := Glyph(t, d), Glyph(t, e);
      assert |g| != |h| || g[0] != h[0];
    }
  }

  /** The glyph with `[color]` spliced in after its first two characters. */
  function Arrow(glyph: string, color: string): (a: string)
    requires |glyph| >= 2
    ensures |a| == |glyph| + |color| + 2
    ensures a[..2] == glyph[..2] && a[2..|color| + 4] == "[" + color + "]" && a[|color| + 4..] == glyph[2..]
  {
    glyph[..2] + "[" + color + "]" + glyph[2..]
  }

  /** Taking the colour back out leaves the table's glyph. */
  lemma ArrowUncolored(glyph: string, color: string)
    requires |glyph| >= 2
    ensures var a := Arrow(glyph, color); a[..2] + a[|color| + 4..] == glyph
  {
    assert glyph == glyph[..2] + glyph[2..];
  }

  /** A quoted multiplicity label, or nothing. */
  function CharLabel(o: Option<string>): string {
    if Truthy(o) then "\"" + o.value + "\"" else ""
  }

  function TitleSuffix(o: Option<string>): string {
    if Truthy(o) then ": \"" + o.value + "\"" else ""
  }

  /** The six fields of a relationship line: parent, left label, arrow, right label,
      first child and title. */
  function LineFields(r: Relationship): (fields: seq<string>)
    requires RelationshipDrawable(r)
    ensures |fields| == 6
  {
    var attrs := r.attributes.fields;
    [r.parent.name, CharLabel(attrs.leftChar),
     Arrow(Glyph(r.relationship, attrs.direction.value), attrs.color.value),
     CharLabel(attrs.rightChar), r.children[0].name, TitleSuffix(attrs.title)]
  }

  /** `_generate_base_hierarchy`: the six fields separated by single spaces and ended by a
      line break. */
  function RelationshipLine(r: Relationship): (line: string)
    requires RelationshipDrawable(r)
    ensures |line| > 0 && line[|line| - 1] == '\n'
  {
    Join(LineFields(r), " ") + "\n"
  }

  lemma GlyphHasNoSpace(t: RelationshipType, d: RelationshipDirection)
    ensures ' ' !in Glyph(t, d)
  {
    match t
    case Association =>
    case _ => match d
      case Forward =>
      case Backward =>
      case Bidirectional =>
  }

  /** When names, labels and colour hold no space, splitting the line at its spaces gives
      back the parent, the left label, the arrow, the right label and the child, followed
      by the pieces of the title. */
  lemma RelationshipLineFields(r: Relationship)
    requires RelationshipDrawable(r)
    requires ' ' !in r.parent.name && ' ' !in r.children[0].name && ' ' !in r.attributes.fields.color.value
    requires ' ' !in CharLabel(r.attributes.fields.leftChar) && ' ' !in CharLabel(r.attributes.fields.rightChar)
    ensures var attrs := r.attributes.fields;
            var line := RelationshipLine(r);
            Split(line[..|line| - 1], ' ')
            == [r.parent.name, CharLabel(attrs.leftChar),
                Arrow(Glyph(r.relationship, attrs.direction.value), attrs.color.value),
                CharLabel(attrs.rightChar), r.children[0].name] + Split(TitleSuffix(attrs.title), ' ')
  {
    var attrs := r.attributes.fields;
    var glyph := Glyph(r.relationship, attrs.direction.value);
    var fields := LineFields(r);
    GlyphHasNoSpace(r.relationship, attrs.direction.value);
    assert ' ' !in fields[2] by {
      assert fields[2] == glyph[..2] + "[" + attrs.color.value + "]" + glyph[2..];
      assert forall c :: c in glyph[..2] || c in glyph[2..] ==> c in glyph;
    }
    var line := RelationshipLine(r);
    assert line[..|line| - 1] == Join(fields[..5] + [fields[5]], " ") by {
      assert fields[..5] + [fields[5]] == fields;
    }
    SplitJoinTail(fields[..5], fields[5], ' ');
  }

  /** The composition line between two plain terms, with an explicit black colour and a
      forward direction: empty labels leave double spaces around the arrow. */
  lemma CompositionLineExample()
    ensures LineFields(Relationship(NewTerm("MyTypeParent"), Composition, [NewTerm("MyTypeChild")],
              Record(RelationshipAttributes(Some("#black"), Some(Forward), None, None, None))))
            == ["MyTypeParent", "", "--[#black]-*", "", "MyTypeChild", ""]
  {
    assert Arrow(Glyph(Composition, Forward), "#black") == "--[#black]-*";
  }

  // ---------------------------------------------------------------------------------
  // A function's node and edges
  // ---------------------------------------------------------------------------------

  /** An argument as the function node shows it: `name: label`, or the bare name when the
      label is empty. */
  function ArgumentText(a: FunctionArgument): string {
    if a.labelText != "" then a.term.name + ": " + a.labelText else a.term.name
  }

  function ArgumentTexts(args: seq<FunctionArgument>): (texts: seq<string>)
    ensures |texts| == |args|
    ensures forall k :: 0 <= k < |args| ==> texts[k] == ArgumentText(args[k])
  {
    if |args| == 0 then [] else ArgumentTexts(args[..|args| - 1]) + [ArgumentText(args[|args| - 1])]
  }

  /** `__prepare_function_term`: the term a function is drawn as. */
  function FunctionTerm(f: Function): (t: Term)
    requires f.attributes.Record?
    ensures t.name == f.name && t.labelText == f.labelText
    ensures TermDrawable(t) && t.attributes.fields.color == f.attributes.fields.color
    ensures t.attributes.fields.note.None?
    ensures t.description == Join(ArgumentTexts(f.inputTypes), ", ") + " -> " + ArgumentText(f.outputType)
  {
    Term(f.name, f.labelText,
         Join(ArgumentTexts(f.inputTypes), ", ") + " -> " + ArgumentText(f.outputType),
         Record(TermAttributes(f.attributes.fields.color, None)))
  }

  /** When no argument text holds a comma, the description splits back at its commas into
      the inputs (the first also before the arrow), one per argument and in order. */
  lemma FunctionTermInputs(f: Function)
    requires f.attributes.Record? && |f.inputTypes| >= 1
    requires forall k :: 0 <= k < |f.inputTypes| ==> ',' !in ArgumentText(f.inputTypes[k])
    ensures var texts := ArgumentTexts(f.inputTypes);
            var joined := Join(texts, ", ");
            && FunctionTerm(f).description[..|joined|] == joined
            && Split(joined, ',') == [texts[0]] + SpaceLed(texts[1..])
  {
    var texts := ArgumentTexts(f.inputTypes);
    JoinCommaSpace(texts);
  }

  /** The term names of a function's arguments, in order. */
  function InputNames(args: seq<FunctionArgument>): (names: seq<string>)
    ensures |names| == |args|
    ensures forall k :: 0 <= k < |args| ==> names[k] == args[k].term.name
  {
    if |args| == 0 then [] else InputNames(args[..|args| - 1]) + [args[|args| - 1].term.name]
  }

  /** How many times `name` occurs in `names`. */
  function NameCount(names: seq<string>, name: string): nat {
    if |names| == 0 then 0
    else NameCount(names[..|names| - 1], name) + (if names[|names| - 1] == name then 1 else 0)
  }

  /** The distinct names of `names` in order of first appearance: the keys of the counting
      dictionary, in insertion order. */
  function FirstAppearance(names: seq<string>): (keys: seq<string>)
    ensures forall i, j :: 0 <= i < j < |keys| ==> keys[i] != keys[j]
    ensures forall n :: n in keys <==> n in names
  {
    if |names| == 0 then []
    else
      var init := names[..|names| - 1];
      var keys := FirstAppearance(init);
      var n := names[|names| - 1];
      assert names == init + [n];
      if n in keys then keys else keys + [n]
  }

  lemma {:induction false} NameCountZero(names: seq<string>, name: string)
    requires name !in names
    ensures NameCount(names, name) == 0
  {
    if |names| > 0 {
      assert names == names[..|names| - 1] + [names[|names| - 1]];
      NameCountZero(names[..|names| - 1], name);
    }
  }

  /** The sum of the counts of `keys`. */
  function SumCounts(names: seq<string>, keys: seq<string>): nat {
    if |keys| == 0 then 0 else SumCounts(names, keys[..|keys| - 1]) + NameCount(names, keys[|keys| - 1])
  }

  lemma {:induction false} SumCountsShift(names: seq<string>, keys: seq<string>)
    requires |names| > 0
    requires forall i, j :: 0 <= i < j < |keys| ==> keys[i] != keys[j]
    ensures SumCounts(names, keys)
            == SumCounts(names[..|names| - 1], keys) + (if names[|names| - 1] in keys then 1 else 0)
  {
    if |keys| > 0 {
      var init := keys[..|keys| - 1];
      SumCountsShift(names, init);
      assert keys == init + [keys[|keys| - 1]];
    }
  }

  /** The counts of the distinct names account for every argument exactly once, and each
      distinct name occurs at least once. */
  lemma CountsCoverArguments(names: seq<string>)
    ensures SumCounts(names, FirstAppearance(names)) == |names|
    ensures forall n :: n in FirstAppearance(names) ==> NameCount(names, n) >= 1
  {
    CountsSum(names);
    forall n | n in FirstAppearance(names)
      ensures NameCount(names, n) >= 1
    {
      NameCountPositive(names, n);
    }
  }

  lemma {:induction false} CountsSum(names: seq<string>)
    ensures SumCounts(names, FirstAppearance(names)) == |names|
  {
    if |names| > 0 {
      var init := names[..|names| - 1];
      var x := names[|names| - 1];
      assert names == init + [x];
      CountsSum(init);
      var keys := FirstAppearance(init);
      SumCountsShift(names, FirstAppearance(names));
      if x !in keys {
        NameCountZero(init, x);
        assert (keys + [x])[..|keys|] == keys;
      }
    }
  }

  lemma {:induction false} NameCountPositive(names: seq<string>, name: string)
    requires name in names
    ensures NameCount(names, name) >= 1
  {
    var init := names[..|names| - 1];
    if names[|names| - 1] != name {
      assert names == init + [names[|names| - 1]];
      NameCountPositive(init, name);
    }
  }

  /** The edge from an input term to the function, labelled with the term's multiplicity
      when it occurs more than once. */
  function InputEdge(f: Function, types: seq<Term>, name: string, count: nat): (r: Relationship)
    requires f.attributes.Record? && f.attributes.fields.kind.Some? && f.attributes.fields.colorArrow.Some?
    requires FindTerm(types, name).Some?
    ensures RelationshipDrawable(r) && r.parent.name == name && r.children == [NewTerm(f.name)]
  {
    var attrs := f.attributes.fields;
    Relationship(FindTerm(types, name).value, attrs.kind.value, [NewTerm(f.name)],
                 Record(RelationshipAttributes(attrs.colorArrow, Some(Forward), attrs.inputTitle, None,
                                               Some(if count != 1 then NatToString(count) else ""))))
  }

  /** The edge from the function to its output term. */
  function OutputEdge(f: Function, types: seq<Term>): (r: Relationship)
    requires FunctionDrawable(f, types)
    ensures RelationshipDrawable(r) && r.parent == NewTerm(f.name) && r.children[0].name == f.outputType.term.name
  {
    var attrs := f.attributes.fields;
    Relationship(NewTerm(f.name), attrs.kind.value, [FindTerm(types, f.outputType.term.name).value],
                 Record(RelationshipAttributes(attrs.colorArrow, Some(Forward), attrs.outputTitle, None, None)))
  }

  /** Every name of `keys` is declared in `types`. */
  predicate AllDeclared(types: seq<Term>, keys: seq<string>) {
    forall k :: 0 <= k < |keys| ==> FindTerm(types, keys[k]).Some?
  }

  function InputEdges(f: Function, types: seq<Term>, keys: seq<string>): (edges: seq<Relationship>)
    requires FunctionDrawable(f, types) && AllDeclared(types, keys)
    ensures |edges| == |keys|
    ensures forall k :: 0 <= k < |keys| ==> RelationshipDrawable(edges[k])
  {
    if |keys| == 0 then []
    else
      var last := keys[|keys| - 1];
      InputEdges(f, types, keys[..|keys| - 1]) + [InputEdge(f, types, last, NameCount(InputNames(f.inputTypes), last))]
  }

  /** The `k`th input edge is the edge of the `k`th name, with that name's count. */
  lemma {:induction false} InputEdgesAt(f: Function, types: seq<Term>, keys: seq<string>, k: nat)
    requires FunctionDrawable(f, types) && AllDeclared(types, keys)
    requires k < |keys|
    ensures InputEdges(f, types, keys)[k] == InputEdge(f, types, keys[k], NameCount(InputNames(f.inputTypes), keys[k]))
  {
    if k < |keys| - 1 {
      InputEdgesAt(f, types, keys[..|keys| - 1], k);
    }
  }

  lemma InputEdgesSnoc(f: Function, types: seq<Term>, keys: seq<string>, j: nat)
    requires FunctionDrawable(f, types) && AllDeclared(types, keys)
    requires j < |keys|
    ensures InputEdges(f, types, keys[..j + 1])
            == InputEdges(f, types, keys[..j]) + [InputEdge(f, types, keys[j], NameCount(InputNames(f.inputTypes), keys[j]))]
  {
    assert keys[..j + 1][..j] == keys[..j];
  }

  /** The names of a drawable function's inputs are all declared. */
  lemma InputsDeclared(f: Function, types: seq<Term>)
    requires FunctionDrawable(f, types)
    ensures AllDeclared(types, FirstAppearance(InputNames(f.inputTypes)))
  {
    var names := InputNames(f.inputTypes);
    var keys := FirstAppearance(names);
    forall i | 0 <= i < |keys| ensures FindTerm(types, keys[i]).Some? {
      assert keys[i] in names;
      var k :| 0 <= k < |names| && names[k] == keys[i];
    }
  }

  /** `__prepare_function_hierarchy`: one forward edge per distinct input term, in order
      of first appearance, then the edge to the output term. */
  function FunctionEdgesSpec(f: Function, types: seq<Term>): (edges: seq<Relationship>)
    requires FunctionDrawable(f, types)
    ensures |edges| == |FirstAppearance(InputNames(f.inputTypes))| + 1
    ensures forall k :: 0 <= k < |edges| ==> RelationshipDrawable(edges[k])
  {
    InputsDeclared(f, types);
    InputEdges(f, types, FirstAppearance(InputNames(f.inputTypes))) + [OutputEdge(f, types)]
  }

  /** An edge drawn for `f`: a forward edge of the function's relationship type in the
      function's arrow colour. */
  predicate EdgeOfFunction(f: Function, r: Relationship)
    requires f.attributes.Record? && r.attributes.Record?
  {
    && f.attributes.fields.kind == Some(r.relationship)
    && r.attributes.fields.direction == Some(Forward)
    && r.attributes.fields.color == f.attributes.fields.colorArrow
  }

  /** An input edge: from the term `name` into the function, labelled with `count` when
      the term is used more than once, unlabelled otherwise. */
  predicate CountedInputEdge(f: Function, name: string, count: nat, r: Relationship)
    requires r.attributes.Record?
  {
    && r.parent.name == name
    && r.children == [NewTerm(f.name)]
    && (count > 1 ==> r.attributes.fields.leftChar == Some(NatToString(count)))
    && (count <= 1 ==> !Truthy(r.attributes.fields.leftChar))
  }

  /** Every edge of a function is a forward edge of the function's relationship type in
      its arrow colour. */
  lemma FunctionEdgesUniform(f: Function, types: seq<Term>)
    requires FunctionDrawable(f, types)
    ensures forall k :: 0 <= k < |FunctionEdgesSpec(f, types)| ==> EdgeOfFunction(f, FunctionEdgesSpec(f, types)[k])
  {
    forall k | 0 <= k < |FunctionEdgesSpec(f, types)|
      ensures EdgeOfFunction(f, FunctionEdgesSpec(f, types)[k])
    {
      EdgeUniform(f, types, k);
    }
  }

  lemma EdgeUniform(f: Function, types: seq<Term>, k: nat)
    requires FunctionDrawable(f, types)
    requires k < |FunctionEdgesSpec(f, types)|
    ensures EdgeOfFunction(f, FunctionEdgesSpec(f, types)[k])
  {
    var keys := FirstAppearance(InputNames(f.inputTypes));
    InputsDeclared(f, types);
    if k < |keys| {
      InputEdgesAt(f, types, keys, k);
    }
  }

  /** The input edges run from the distinct input terms, in order of first appearance,
      into the function, each labelled with its multiplicity when above one; the last
      edge runs from the function to its output term. */
  lemma FunctionEdgesShape(f: Function, types: seq<Term>)
    requires FunctionDrawable(f, types)
    ensures forall k :: 0 <= k < |FirstAppearance(InputNames(f.inputTypes))| ==>
              CountedInputEdge(f, FirstAppearance(InputNames(f.inputTypes))[k],
                               NameCount(InputNames(f.inputTypes), FirstAppearance(InputNames(f.inputTypes))[k]),
                               FunctionEdgesSpec(f, types)[k])
    ensures FunctionEdgesSpec(f, types)[|FirstAppearance(InputNames(f.inputTypes))|].parent.name == f.name
    ensures FunctionEdgesSpec(f, types)[|FirstAppearance(InputNames(f.inputTypes))|].children[0].name
            == f.outputType.term.name
  {
    var names := InputNames(f.inputTypes);
    var keys := FirstAppearance(names);
    forall k | 0 <= k < |keys|
      ensures CountedInputEdge(f, keys[k], NameCount(names, keys[k]), FunctionEdgesSpec(f, types)[k])
    {
      InputEdgeShape(f, types, k);
    }
    InputsDeclared(f, types);
    var ins := InputEdges(f, types, keys);
    assert FunctionEdgesSpec(f, types)[|keys|] == (ins + [OutputEdge(f, types)])[|ins|];
  }

  lemma InputEdgeShape(f: Function, types: seq<Term>, k: nat)
    requires FunctionDrawable(f, types)
    requires k < |FirstAppearance(InputNames(f.inputTypes))|
    ensures var keys := FirstAppearance(InputNames(f.inputTypes));
            CountedInputEdge(f, keys[k], NameCount(InputNames(f.inputTypes), keys[k]), FunctionEdgesSpec(f, types)[k])
  {
    var names := InputNames(f.inputTypes);
    var keys := FirstAppearance(names);
    InputsDeclared(f, types);
    InputEdgesAt(f, types, keys, k);
    CountsCoverArguments(names);
    assert keys[k] in keys;
  }

  /** One more name: it joins the keys if it is new, and its count goes up. */
  lemma CountStep(names: seq<string>, i: nat)
    requires i < |names|
    ensures var name := names[i];
            && FirstAppearance(names[..i + 1])
               == (if name in FirstAppearance(names[..i]) then FirstAppearance(names[..i])
                   else FirstAppearance(names[..i]) + [name])
            && forall n :: NameCount(names[..i + 1], n) == NameCount(names[..i], n) + (if n == name then 1 else 0)
  {
    assert names[..i + 1][..i] == names[..i];
  }

  /** A term used twice as an input is drawn once, its edge labelled "2". */
  lemma DoubleInputExample(types: seq<Term>, f: Function)
    requires f.attributes.Record? && f.attributes.fields.kind == Some(DirectAssociation)
    requires f.attributes.fields.colorArrow == Some("#E6B8B7") && f.attributes.fields.inputTitle.None?
    requires f.name == "MyFunction1" && FindTerm(types, "MyTypeChild").Some?
    ensures LineFields(InputEdge(f, types, "MyTypeChild", 2))
            == ["MyTypeChild", "\"2\"", "--[#E6B8B7]->", "", "MyFunction1", ""]
  {
    var r := InputEdge(f, types, "MyTypeChild", 2);
    assert NatToString(2) == [DigitChar(2)] == "2";
    DoubleInputFields(r);
  }

  /** The six fields of an unlabelled, untitled forward direct association in the
      example's colour, its left end marked "2". */
  lemma DoubleInputFields(r: Relationship)
    requires RelationshipDrawable(r) && r.relationship == DirectAssociation
    requires r.parent.name == "MyTypeChild" && r.children[0].name == "MyFunction1"
    requires r.attributes.fields.leftChar == Some("2") && r.attributes.fields.rightChar.None?
    requires r.attributes.fields.title.None? && r.attributes.fields.direction == Some(Forward)
    requires r.attributes.fields.color == Some("#E6B8B7")
    ensures LineFields(r) == ["MyTypeChild", "\"2\"", "--[#E6B8B7]->", "", "MyFunction1", ""]
  {
    assert CharLabel(Some("2")) == "\"2\"";
    assert Arrow(Glyph(DirectAssociation, Forward), "#E6B8B7") == "--[#E6B8B7]->";
  }

  /** The counting loop of `__prepare_function_hierarchy`: a dictionary from each input
      term name to its number of occurrences, with the dictionary's keys in insertion
      order. */
  method CountNames(args: seq<FunctionArgument>) returns (counts: map<string, nat>, order: seq<string>)
    ensures order == FirstAppearance(InputNames(args))
    ensures forall n :: n in counts <==> n in order
    ensures forall n :: n in counts ==> counts[n] == NameCount(InputNames(args), n)
  {
    ghost var names := InputNames(args);
    counts := map[];
    order := [];
    var i := 0;
    while i < |args|
      invariant i <= |args|
      invariant order == FirstAppearance(names[..i])
      invariant forall n :: n in counts <==> n in order
      invariant forall n :: n in counts ==> counts[n] == NameCount(names[..i], n)
    {
      var name := args[i].term.name;
      CountStep(names, i);
      var current := if name in counts then counts[name] else 0;
      if name !in counts {
        NameCountZero(names[..i], name);
        order := order + [name];
      }
      counts := counts[name := current + 1];
      i := i + 1;
    }
    assert names[..i] == names;
  }

  /** The edge loop of `__prepare_function_hierarchy`: an edge per counted name, in the
      dictionary's order. */
  method CountedEdges(f: Function, types: seq<Term>, counts: map<string, nat>, order: seq<string>)
    returns (relations: seq<Relationship>)
    requires FunctionDrawable(f, types) && AllDeclared(types, order)
    requires forall k :: 0 <= k < |order| ==>
               order[k] in counts && counts[order[k]] == NameCount(InputNames(f.inputTypes), order[k])
    ensures relations == InputEdges(f, types, order)
  {
    relations := [];
    var j := 0;
    while j < |order|
      invariant j <= |order|
      invariant relations == InputEdges(f, types, order[..j])
    {
      InputEdgesSnoc(f, types, order, j);
      relations := relations + [InputEdge(f, types, order[j], counts[order[j]])];
      j := j + 1;
    }
    assert order[..j] == order;
  }

  /** `__prepare_function_hierarchy` itself: count the input term names, then make an
      edge per name in the dictionary's order, then the edge to the output. */
  method FunctionEdges(f: Function, types: seq<Term>) returns (relations: seq<Relationship>)
    requires FunctionDrawable(f, types)
    ensures relations == FunctionEdgesSpec(f, types)
  {
    var counts, order := CountNames(f.inputTypes);
    InputsDeclared(f, types);
    assert forall k :: 0 <= k < |order| ==> order[k] in order;
    relations := CountedEdges(f, types, counts, order);
    relations := relations + [OutputEdge(f, types)];
  }

  // ---------------------------------------------------------------------------------
  // The document
  // ---------------------------------------------------------------------------------

  /** The package name: the title, or "Онтология" when there is none. */
  function PackageName(meta: Meta): string {
    if meta.title.Some? then meta.title.value else "\U{041E}\U{043D}\U{0442}\U{043E}\U{043B}\U{043E}\U{0433}\U{0438}\U{044F}"
  }

  /** The fixed opening lines and the package line. */
  function Header(meta: Meta): (lines: seq<string>)
    ensures |lines| == 9 && lines[0] == "@startuml"
    ensures lines[8] == "package \"" + PackageName(meta) + "\" {"
  {
    ["@startuml",
     "skinparam backgroundColor #F0F8FF",
     "skinparam defaultTextAlignment center",
     "skinparam shadowing false",
     "skinparam dpi 150",
     "skinparam linetype ortho",
     "skinparam ranksep 40",
     "skinparam nodesep 30",
     "package \"" + PackageName(meta) + "\" {"]
  }

  /** A rectangle and a note line per term. */
  function TermLines(types: seq<Term>): (lines: seq<string>)
    requires forall k :: 0 <= k < |types| ==> TermDrawable(types[k])
    ensures |lines| == 2 * |types|
  {
    if |types| == 0 then []
    else TermLines(types[..|types| - 1]) + [Rectangle(types[|types| - 1]), Note(types[|types| - 1])]
  }

  /** A rectangle per function. */
  function FunctionTermLines(functions: seq<Function>): (lines: seq<string>)
    requires forall k :: 0 <= k < |functions| ==> functions[k].attributes.Record?
    ensures |lines| == |functions|
  {
    if |functions| == 0 then []
    else FunctionTermLines(functions[..|functions| - 1]) + [Rectangle(FunctionTerm(functions[|functions| - 1]))]
  }

  function RelationshipLines(relationships: seq<Relationship>): (lines: seq<string>)
    requires forall k :: 0 <= k < |relationships| ==> RelationshipDrawable(relationships[k])
    ensures |lines| == |relationships|
  {
    if |relationships| == 0 then []
    else RelationshipLines(relationships[..|relationships| - 1]) + [RelationshipLine(relationships[|relationships| - 1])]
  }

  /** The edge lines of each function in turn. */
  function EdgeLines(functions: seq<Function>, types: seq<Term>): seq<string>
    requires FunctionsDrawable(functions, types)
  {
    EdgeLinesUpTo(functions, types, |functions|)
  }

  /** The edge lines of the first `n` functions. */
  function EdgeLinesUpTo(functions: seq<Function>, types: seq<Term>, n: nat): seq<string>
    requires FunctionsDrawable(functions, types) && n <= |functions|
  {
    if n == 0 then []
    else EdgeLinesUpTo(functions, types, n - 1) + RelationshipLines(FunctionEdgesSpec(functions[n - 1], types))
  }

  /** The lines of `_generate_base`, in order. */
  function BaseLines(types: seq<Term>, functions: seq<Function>, hierarchy: seq<Relationship>, meta: Meta): seq<string>
    requires OntologyDrawable(types, functions, hierarchy)
  {
    Header(meta) + TermLines(types) + FunctionTermLines(functions) + EdgeLines(functions, types)
    + RelationshipLines(hierarchy) + ["}", "@enduml"]
  }

  /** The document opens with `@startuml` and closes the package before `@enduml`. */
  lemma DocumentFraming(types: seq<Term>, functions: seq<Function>, hierarchy: seq<Relationship>, meta: Meta)
    requires OntologyDrawable(types, functions, hierarchy)
    ensures var doc := Join(BaseLines(types, functions, hierarchy, meta), "\n");
            && |doc| >= 10 + 10
            && doc[..10] == "@startuml\n"
            && doc[|doc| - 10..] == "\n}\n@enduml"
  {
    var head := Header(meta);
    var a, b, c, d := TermLines(types), FunctionTermLines(functions), EdgeLines(functions, types), RelationshipLines(hierarchy);
    HeadFirst(head, a, b, c, d);
    FramedJoin(head + a + b + c + d);
  }

  /** The header's first line stays first whatever follows it. */
  lemma HeadFirst(head: seq<string>, a: seq<string>, b: seq<string>, c: seq<string>, d: seq<string>)
    requires |head| >= 9
    ensures |head + a + b + c + d| >= 9 && (head + a + b + c + d)[0] == head[0]
  {
  }

  /** Lines that open with `@startuml`, followed by `}` and `@enduml`, joined by line
      breaks. */
  lemma FramedJoin(framed: seq<string>)
    requires |framed| >= 9 && framed[0] == "@startuml"
    ensures var doc := Join(framed + ["}", "@enduml"], "\n");
            && |doc| >= 10 + 10
            && doc[..10] == "@startuml\n"
            && doc[|doc| - 10..] == "\n}\n@enduml"
  {
    var j := Join(framed, "\n");
    var tail := "\n}\n@enduml";
    assert Join(framed + ["}", "@enduml"], "\n") == j + tail by {
      assert framed + ["}", "@enduml"] == framed + ["}"] + ["@enduml"];
      JoinAppend(framed, "}", "\n");
      JoinAppend(framed + ["}"], "@enduml", "\n");
    }
    assert |j| >= 10 && j[..10] == "@startuml\n" by {
      JoinOpens(framed, "\n");
    }
    PrefixAndTail(j, "@startuml\n", tail);
  }

  /** The term loop of `_generate_base`. */
  method AppendTermLines(lines: seq<string>, types: seq<Term>) returns (out: seq<string>)
    requires forall k :: 0 <= k < |types| ==> TermDrawable(types[k])
    ensures out == lines + TermLines(types)
  {
    out := lines;
    var i := 0;
    while i < |types|
      invariant i <= |types|
      invariant out == lines + TermLines(types[..i])
    {
      assert types[..i + 1][..i] == types[..i];
      out := out + [Rectangle(types[i]), Note(types[i])];
      i := i + 1;
    }
    assert types[..i] == types;
  }

  /** The loop of `_generate_base` drawing each function as a rectangle. */
  method AppendFunctionTermLines(lines: seq<string>, functions: seq<Function>) returns (out: seq<string>)
    requires forall k :: 0 <= k < |functions| ==> functions[k].attributes.Record?
    ensures out == lines + FunctionTermLines(functions)
  {
    out := lines;
    var i := 0;
    while i < |functions|
      invariant i <= |functions|
      invariant out == lines + FunctionTermLines(functions[..i])
    {
      assert functions[..i + 1][..i] == functions[..i];
      out := out + [Rectangle(FunctionTerm(functions[i]))];
      i := i + 1;
    }
    assert functions[..i] == functions;
  }

  /** A line per relationship, in order. */
  method AppendRelationshipLines(lines: seq<string>, relationships: seq<Relationship>) returns (out: seq<string>)
    requires forall k :: 0 <= k < |relationships| ==> RelationshipDrawable(relationships[k])
    ensures out == lines + RelationshipLines(relationships)
  {
    out := lines;
    var i := 0;
    while i < |relationships|
      invariant i <= |relationships|
      invariant out == lines + RelationshipLines(relationships[..i])
    {
      assert relationships[..i + 1][..i] == relationships[..i];
      out := out + [RelationshipLine(relationships[i])];
      i := i + 1;
    }
    assert relationships[..i] == relationships;
  }

  /** The inner loop of `_generate_base` over one function's edges. */
  method AppendFunctionEdgeLines(lines: seq<string>, f: Function, types: seq<Term>) returns (out: seq<string>)
    requires FunctionDrawable(f, types)
    ensures out == lines + RelationshipLines(FunctionEdgesSpec(f, types))
  {
    var relations := FunctionEdges(f, types);
    out := AppendRelationshipLines(lines, relations);
  }

  /** One turn of the outer loop of `_generate_base`: the next function's edge lines. */
  method AppendNextEdgeLines(lines: seq<string>, done: seq<string>, functions: seq<Function>, types: seq<Term>, i: nat)
    returns (out: seq<string>)
    requires FunctionsDrawable(functions, types) && i < |functions|
    requires done == lines + EdgeLinesUpTo(functions, types, i)
    ensures out == lines + EdgeLinesUpTo(functions, types, i + 1)
  {
    out := AppendFunctionEdgeLines(done, functions[i], types);
    AppendAfterAppend(lines, EdgeLinesUpTo(functions, types, i), RelationshipLines(FunctionEdgesSpec(functions[i], types)),
                      done, out);
  }

  /** The nested loop of `_generate_base` over each function's edges. */
  method AppendEdgeLines(lines: seq<string>, functions: seq<Function>, types: seq<Term>) returns (out: seq<string>)
    requires FunctionsDrawable(functions, types)
    ensures out == lines + EdgeLines(functions, types)
  {
    out := lines;
    var i := 0;
    assert EdgeLinesUpTo(functions, types, 0) == [];
    assert out == lines + [];
    while i < |functions|
      invariant i <= |functions|
      invariant out == lines + EdgeLinesUpTo(functions, types, i)
    {
      out := AppendNextEdgeLines(lines, out, functions, types, i);
      i := i + 1;
    }
  }

  /** `_generate_base`: the header, then the lines of the terms, the function nodes, the
      function edges and the hierarchy, each list in order, then the closing lines. */
  method GenerateBase(ontology: Ontology) returns (r: Result<string, Fault>)
    ensures r.Failure? <==> DrawFault(ontology.types, ontology.functions, ontology.hierarchy).Some?
    ensures r.Failure? ==> r.error == DrawFault(ontology.types, ontology.functions, ontology.hierarchy).value
    ensures r.Success? ==>
              && OntologyDrawable(ontology.types, ontology.functions, ontology.hierarchy)
              && r.value == Join(BaseLines(ontology.types, ontology.functions, ontology.hierarchy, ontology.meta), "\n")
  {
    var fault := DrawFault(ontology.types, ontology.functions, ontology.hierarchy);
    if fault.Some? {
      return Failure(fault.value);
    }
    DrawFaultNone(ontology.types, ontology.functions, ontology.hierarchy);
    var lines := Header(ontology.meta);
    lines := AppendTermLines(lines, ontology.types);
    lines := AppendFunctionTermLines(lines, ontology.functions);
    lines := AppendEdgeLines(lines, ontology.functions, ontology.types);
    lines := AppendRelationshipLines(lines, ontology.hierarchy);
    lines := lines + ["}", "@enduml"];
    r := Success(Join(lines, "\n"));
  }

  /** The base diagram's kind: no `type:` at all, or "Базовый". */
  predicate IsBaseKind(kind: Option<string>) {
    kind.None? || kind == Some("\U{0411}\U{0430}\U{0437}\U{043E}\U{0432}\U{044B}\U{0439}")
  }

  /** `generate`: the base document for the base kind, raising where `_generate_base`
      does; `None` for any other kind, whatever the ontology holds. */
  method Generate(ontology: Ontology) returns (r: Result<Option<string>, Fault>)
    ensures !IsBaseKind(ontology.meta.kind) ==> r == Success(None)
    ensures IsBaseKind(ontology.meta.kind) ==>
              (r.Failure? <==> DrawFault(ontology.types, ontology.functions, ontology.hierarchy).Some?)
    ensures r.Failure? ==> r.error == DrawFault(ontology.types, ontology.functions, ontology.hierarchy).value
    ensures r.Success? && r.value.Some? ==>
              && IsBaseKind(ontology.meta.kind)
              && OntologyDrawable(ontology.types, ontology.functions, ontology.hierarchy)
              && r.value.value == Join(BaseLines(ontology.types, ontology.functions, ontology.hierarchy, ontology.meta), "\n")
  {
    if IsBaseKind(ontology.meta.kind) {
      var base := GenerateBase(ontology);
      match base
      case Success(text) => r := Success(Some(text));
      case Failure(e) => r := Failure(e);
    } else {
      r := Success(None);
    }
  }

  // ---------------------------------------------------------------------------------
  // The 6-bit text encoding
  // ---------------------------------------------------------------------------------

  /** PlantUML's 64 symbols in value order: the digits, the upper-case letters, the
      lower-case letters, then `-` and `_`. */
  const Alphabet: string := "0123456789" + "ABCDEFGHIJKLMNOPQRSTUVWXYZ" + "abcdefghijklmnopqrstuvwxyz" + "-_"

  /** A byte, as the integers `bytes` holds. */
  type Byte = b: int | 0 <= b < 256

  /** A 6-bit group. */
  type Sextet = c: int | 0 <= c < 64

  /** The four 6-bit groups of three bytes, most significant first (the grouping of
      section 4 of RFC 4648): the source's shifts and masks, as divisions and
      remainders by powers of two. */
  function Sextets(b1: Byte, b2: Byte, b3: Byte): (c: (Sextet, Sextet, Sextet, Sextet))
    ensures b1 * 65536 + b2 * 256 + b3 == c.0 * 262144 + c.1 * 4096 + c.2 * 64 + c.3
  {
    (b1 / 4, (b1 % 4) * 16 + b2 / 16, (b2 % 16) * 4 + b3 / 64, b3 % 64)
  }

  /** The three bytes four 6-bit groups stand for. */
  function Octets(c1: Sextet, c2: Sextet, c3: Sextet, c4: Sextet): (Byte, Byte, Byte) {
    (c1 * 4 + c2 / 16, (c2 % 16) * 16 + c3 / 4, (c3 % 4) * 64 + c4)
  }

  /** Regrouping the 24 bits loses nothing. */
  lemma OctetsOfSextets(b1: Byte, b2: Byte, b3: Byte)
    ensures var c := Sextets(b1, b2, b3); Octets(c.0, c.1, c.2, c.3) == (b1, b2, b3)
  {
    Regroup16(b1 % 4, b2 / 16);
    Regroup4(b2 % 16, b3 / 64);
  }

  /** Four high bits and four low bits read back from their byte. */
  lemma Regroup16(hi: int, lo: int)
    requires 0 <= hi < 4 && 0 <= lo < 16
    ensures (hi * 16 + lo) / 16 == hi && (hi * 16 + lo) % 16 == lo
  {
  }

  /** Four high bits and two low bits read back from their sextet. */
  lemma Regroup4(hi: int, lo: int)
    requires 0 <= hi < 16 && 0 <= lo < 4
    ensures (hi * 4 + lo) / 4 == hi && (hi * 4 + lo) % 4 == lo
  {
  }

  /** `__encode3bytes`: three bytes as four symbols. */
  function Encode3Bytes(b1: Byte, b2: Byte, b3: Byte): (s: string)
    ensures |s| == 4
  {
    var c := Sextets(b1, b2, b3);
    [Alphabet[c.0], Alphabet[c.1], Alphabet[c.2], Alphabet[c.3]]
  }

  /** A symbol's value, if it is one of the 64. */
  function SymbolValue(ch: char): Option<Sextet> {
    if '0' <= ch <= '9' then Some(ch as int - '0' as int)
    else if 'A' <= ch <= 'Z' then Some(ch as int - 'A' as int + 10)
    else if 'a' <= ch <= 'z' then Some(ch as int - 'a' as int + 36)
    else if ch == '-' then Some(62)
    else if ch == '_' then Some(63)
    else None
  }

  /** Every symbol is read back as its position in the alphabet. */
  lemma SymbolValueOfAlphabet(i: Sextet)
    ensures SymbolValue(Alphabet[i]) == Some(i)
  {
    assert forall k :: 0 <= k < 10 ==> "0123456789"[k] as int == '0' as int + k;
    assert forall k :: 0 <= k < 26 ==> "ABCDEFGHIJKLMNOPQRSTUVWXYZ"[k] as int == 'A' as int + k;
    assert forall k :: 0 <= k < 26 ==> "abcdefghijklmnopqrstuvwxyz"[k] as int == 'a' as int + k;
  }

  /** The three bytes four symbols stand for. */
  function Decode4(s: string): Option<(Byte, Byte, Byte)>
    requires |s| == 4
  {
    match (SymbolValue(s[0]), SymbolValue(s[1]), SymbolValue(s[2]), SymbolValue(s[3]))
    case (Some(c1), Some(c2), Some(c3), Some(c4)) => Some(Octets(c1, c2, c3, c4))
    case _ => None
  }

  /** Decoding undoes `__encode3bytes`. */
  lemma Decode4Encode(b1: Byte, b2: Byte, b3: Byte)
    ensures Decode4(Encode3Bytes(b1, b2, b3)) == Some((b1, b2, b3))
  {
    var c := Sextets(b1, b2, b3);
    var s := Encode3Bytes(b1, b2, b3);
    SymbolValueOfAlphabet(c.0);
    SymbolValueOfAlphabet(c.1);
    SymbolValueOfAlphabet(c.2);
    SymbolValueOfAlphabet(c.3);
    assert SymbolValue(s[0]) == Some(c.0) && SymbolValue(s[1]) == Some(c.1);
    assert SymbolValue(s[2]) == Some(c.2) && SymbolValue(s[3]) == Some(c.3);
    OctetsOfSextets(b1, b2, b3);
  }

  /** The number of started groups of three among `n` bytes. */
  function GroupCount(n: nat): (g: nat)
    ensures 3 * g >= n && 3 * g < n + 3
  {
    if n == 0 then 0 else if n <= 3 then 1 else 1 + GroupCount(n - 3)
  }

  /** The encoding of a byte string: a group of four symbols per three bytes, a final
      group of one or two bytes padded with zero bytes. */
  function EncodeData(data: seq<Byte>): (text: string)
    ensures |text| == 4 * GroupCount(|data|)
    decreases |data|
  {
    if |data| == 0 then ""
    else if |data| == 1 then Encode3Bytes(data[0], 0, 0)
    else if |data| == 2 then Encode3Bytes(data[0], data[1], 0)
    else Encode3Bytes(data[0], data[1], data[2]) + EncodeData(data[3..])
  }

  /** The bytes a text of four-symbol groups stands for; nothing for a text that is not
      made of whole groups of symbols. */
  function DecodeData(text: string): Option<seq<Byte>>
    decreases |text|
  {
    if |text| == 0 then Some([])
    else if |text| < 4 then None
    else match (Decode4(text[..4]), DecodeData(text[4..]))
      case (Some(b), Some(rest)) => Some([b.0, b.1, b.2] + rest)
      case _ => None
  }

  /** The zero bytes that pad the last group of `n` bytes. */
  function Padding(n: nat): (z: seq<Byte>)
    ensures |z| < 3 && forall k :: 0 <= k < |z| ==> z[k] == 0
  {
    if n == 0 then [] else if n == 1 then [0, 0] else if n == 2 then [0] else if n == 3 then [] else Padding(n - 3)
  }

  /** Decoding the encoding gives the data back, followed by the zero bytes that padded
      its last group. */
  lemma {:induction false} DecodeEncodeData(data: seq<Byte>)
    ensures DecodeData(EncodeData(data)).Some?
    ensures DecodeData(EncodeData(data)).value == data + Padding(|data|)
    decreases |data|
  {
    if |data| == 0 {
      assert data + Padding(0) == [];
    } else if |data| == 1 {
      DecodeGroup(data[0], 0, 0, "");
      assert EncodeData(data) == Encode3Bytes(data[0], 0, 0) + "";
      assert data + Padding(1) == [data[0], 0, 0] + [];
    } else if |data| == 2 {
      DecodeGroup(data[0], data[1], 0, "");
      assert EncodeData(data) == Encode3Bytes(data[0], data[1], 0) + "";
      assert data + Padding(2) == [data[0], data[1], 0] + [];
    } else {
      var rest := data[3..];
      DecodeEncodeData(rest);
      DecodeGroup(data[0], data[1], data[2], EncodeData(rest));
      PaddingShift(|data|);
      RegroupPadded(data, Padding(|data|));
    }
  }

  /** One group of symbols in front of a text adds its three bytes in front of the
      text's bytes. */
  lemma DecodeGroup(b1: Byte, b2: Byte, b3: Byte, text: string)
    requires DecodeData(text).Some?
    ensures DecodeData(Encode3Bytes(b1, b2, b3) + text).Some?
    ensures DecodeData(Encode3Bytes(b1, b2, b3) + text).value == [b1, b2, b3] + DecodeData(text).value
  {
    var all := Encode3Bytes(b1, b2, b3) + text;
    assert all[..4] == Encode3Bytes(b1, b2, b3) && all[4..] == text;
    Decode4Encode(b1, b2, b3);
  }

  lemma PaddingShift(n: nat)
    requires n >= 3
    ensures Padding(n) == Padding(n - 3)
  {
  }

  lemma RegroupPadded(data: seq<Byte>, p: seq<Byte>)
    requires |data| >= 3
    ensures data + p == [data[0], data[1], data[2]] + (data[3..] + p)
  {
    assert data == [data[0], data[1], data[2]] + data[3..];
  }

  /** The chunk loop of `processes_puml_to_png`, on the compressed bytes: three bytes at
      a time, a short last group padded with zero bytes. */
  method EncodeChunks(data: seq<Byte>) returns (encoded: string)
    ensures encoded == EncodeData(data)
  {
    encoded := "";
    var i := 0;
    while i < |data|
      invariant i % 3 == 0 && i <= |data| + 2
      invariant EncodeData(data) == encoded + (if i < |data| then EncodeData(data[i..]) else "")
    {
      var rest := data[i..];
      if i + 2 == |data| {
        encoded := encoded + Encode3Bytes(data[i], data[i + 1], 0);
      } else if i + 1 == |data| {
        encoded := encoded + Encode3Bytes(data[i], 0, 0);
      } else {
        assert rest[3..] == data[i + 3..];
        encoded := encoded + Encode3Bytes(data[i], data[i + 1], data[i + 2]);
      }
      i := i + 3;
    }
  }
}

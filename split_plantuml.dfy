/** The PlantUML generator of the split-based prototype (parser/plantuml_generator.py):
    the document's fixed opening and closing lines, an optional title, a class block per
    type and per function and a note per hierarchy expression, joined by newlines.

    Python's `hash` of a string is salted per process, so the note identifiers are
    computed with a hash function given as a parameter. */
module SplitPlantUml {
  import opened Wrappers
  import opened Text
  import opened SplitAst
  import P = PlantUml

  const Opening: seq<string> := ["@startuml", "skinparam classAttributeIconSize 0"]

  const Closing: string := "@enduml"

  /** `f'title {meta.name} by {meta.author}'`, an unset field shown as `None`. */
  function TitleLine(m: Meta): string {
    "title " + P.Shown(m.name) + " by " + P.Shown(m.author)
  }

  /** `_generate_type`: a class block of three lines, the description on the middle one. */
  function TypeBlock(t: Term): string {
    "class " + t.name + " {\n  " + P.Shown(t.description) + "\n}"
  }

  /** The text between the parentheses of a signature: the names joined by `, `. */
  function Listed(names: seq<string>): string {
    Join(names, ", ")
  }

  /** `_generate_function`: a `<<Function>>` class block of four lines, the class head,
      the signature, the description and the closing brace. */
  function FunctionBlock(f: Function): string {
    FunctionHead(f) + "\n" + Signature(f) + "\n" + "  " + P.Shown(f.description) + "\n}"
  }

  function FunctionHead(f: Function): string {
    "class " + f.name + " <<Function>> {"
  }

  /** `+name(inputs) : (outputs)`, indented by two spaces. */
  function Signature(f: Function): string {
    "  +" + f.name + "(" + Listed(f.inputTypes) + ") : (" + Listed(f.outputTypes) + ")"
  }

  /** The identifier `hash(expression) % 10000`: Python's `%` with a positive divisor is
      never negative, as Dafny's is not. */
  function NoteId(expression: string, hash: string -> int): (id: nat)
    ensures id < 10000
  {
    hash(expression) % 10000
  }

  /** `_generate_logical_expression` */
  function NoteLine(r: Relationship, hash: string -> int): string {
    "note \"" + r.expression + "\" as N" + NatToString(NoteId(r.expression, hash))
  }

  /** The opening lines, then the title when metadata is set. */
  function Header(meta: Option<Meta>): (lines: seq<string>)
    ensures |lines| == if meta.Some? then 3 else 2
  {
    Opening + (if meta.Some? then [TitleLine(meta.value)] else [])
  }

  function TypeBlocks(types: seq<Term>): (blocks: seq<string>)
    ensures |blocks| == |types|
    ensures forall k :: 0 <= k < |types| ==> blocks[k] == TypeBlock(types[k])
  {
    if |types| == 0 then [] else TypeBlocks(types[..|types| - 1]) + [TypeBlock(types[|types| - 1])]
  }

  function FunctionBlocks(functions: seq<Function>): (blocks: seq<string>)
    ensures |blocks| == |functions|
    ensures forall k :: 0 <= k < |functions| ==> blocks[k] == FunctionBlock(functions[k])
  {
    if |functions| == 0 then []
    else FunctionBlocks(functions[..|functions| - 1]) + [FunctionBlock(functions[|functions| - 1])]
  }

  function NoteLines(hierarchy: seq<Relationship>, hash: string -> int): (notes: seq<string>)
    ensures |notes| == |hierarchy|
    ensures forall k :: 0 <= k < |hierarchy| ==> notes[k] == NoteLine(hierarchy[k], hash)
  {
    if |hierarchy| == 0 then []
    else NoteLines(hierarchy[..|hierarchy| - 1], hash) + [NoteLine(hierarchy[|hierarchy| - 1], hash)]
  }

  /** The entries of `uml_lines`, in order. */
  function DocumentLines(c: Contents, hash: string -> int): seq<string> {
    Header(c.meta) + TypeBlocks(c.types) + FunctionBlocks(c.functions) + NoteLines(c.hierarchy, hash) + [Closing]
  }

  /** `PlantUMLGenerator().generate(ontology)`, with `hash` standing for Python's string
      hash. */
  method Generate(o: Ontology, hash: string -> int) returns (doc: string)
    ensures doc == Join(DocumentLines(o.Snapshot(), hash), "\n")
  {
    var lines := Opening;
    if o.meta.Some? {
      lines := lines + [TitleLine(o.meta.value)];
    }
    assert lines == Header(o.meta);
    lines := AppendTypeBlocks(lines, o.types);
    lines := AppendFunctionBlocks(lines, o.functions);
    lines := AppendNoteLines(lines, o.hierarchy, hash);
    lines := lines + [Closing];
    doc := Join(lines, "\n");
  }

  /** The loop of `generate` over the types. */
  method AppendTypeBlocks(lines: seq<string>, types: seq<Term>) returns (out: seq<string>)
    ensures out == lines + TypeBlocks(types)
  {
    out := lines;
    var i := 0;
    while i < |types|
      invariant i <= |types|
      invariant out == lines + TypeBlocks(types[..i])
    {
      assert types[..i + 1][..i] == types[..i];
      out := out + [TypeBlock(types[i])];
      i := i + 1;
    }
    assert types[..i] == types;
  }

  /** The loop of `generate` over the functions. */
  method AppendFunctionBlocks(lines: seq<string>, functions: seq<Function>) returns (out: seq<string>)
    ensures out == lines + FunctionBlocks(functions)
  {
    out := lines;
    var i := 0;
    while i < |functions|
      invariant i <= |functions|
      invariant out == lines + FunctionBlocks(functions[..i])
    {
      assert functions[..i + 1][..i] == functions[..i];
      out := out + [FunctionBlock(functions[i])];
      i := i + 1;
    }
    assert functions[..i] == functions;
  }

  /** The loop of `generate` over the hierarchy. */
  method AppendNoteLines(lines: seq<string>, hierarchy: seq<Relationship>, hash: string -> int) returns (out: seq<string>)
    ensures out == lines + NoteLines(hierarchy, hash)
  {
    out := lines;
    var i := 0;
    while i < |hierarchy|
      invariant i <= |hierarchy|
      invariant out == lines + NoteLines(hierarchy[..i], hash)
    {
      assert hierarchy[..i + 1][..i] == hierarchy[..i];
      out := out + [NoteLine(hierarchy[i], hash)];
      i := i + 1;
    }
    assert hierarchy[..i] == hierarchy;
  }

  /** Where each part of the document sits: the header, then a block per type and per
      function and a note per expression, each list in its own order, then `@enduml`. */
  lemma DocumentLayout(c: Contents, hash: string -> int)
    ensures |DocumentLines(c, hash)| == |Header(c.meta)| + |c.types| + |c.functions| + |c.hierarchy| + 1
    ensures forall k :: 0 <= k < |Header(c.meta)| ==> DocumentLines(c, hash)[k] == Header(c.meta)[k]
    ensures forall k :: 0 <= k < |c.types| ==>
              DocumentLines(c, hash)[|Header(c.meta)| + k] == TypeBlock(c.types[k])
    ensures forall k :: 0 <= k < |c.functions| ==>
              DocumentLines(c, hash)[|Header(c.meta)| + |c.types| + k] == FunctionBlock(c.functions[k])
    ensures forall k :: 0 <= k < |c.hierarchy| ==>
              DocumentLines(c, hash)[|Header(c.meta)| + |c.types| + |c.functions| + k]
              == NoteLine(c.hierarchy[k], hash)
    ensures DocumentLines(c, hash)[|DocumentLines(c, hash)| - 1] == Closing
  {
    HeadPlaced(c, hash);
    TypesPlaced(c, hash);
    FunctionsPlaced(c, hash);
    NotesPlaced(c, hash);
  }

  lemma HeadPlaced(c: Contents, hash: string -> int)
    ensures |DocumentLines(c, hash)| == |Header(c.meta)| + |c.types| + |c.functions| + |c.hierarchy| + 1
    ensures forall k :: 0 <= k < |Header(c.meta)| ==> DocumentLines(c, hash)[k] == Header(c.meta)[k]
    ensures DocumentLines(c, hash)[|DocumentLines(c, hash)| - 1] == Closing
  {
    var head := Header(c.meta);
    var t := TypeBlocks(c.types);
    var fb := FunctionBlocks(c.functions);
    var notes := NoteLines(c.hierarchy, hash);
    forall k | 0 <= k < |head|
      ensures DocumentLines(c, hash)[k] == head[k]
    {
      Before(head + t + fb + notes, [Closing], k);
      Before(head + t + fb, notes, k);
      Before(head + t, fb, k);
      Before(head, t, k);
    }
    After(head + t + fb + notes, [Closing], 0);
  }

  lemma TypesPlaced(c: Contents, hash: string -> int)
    ensures forall k :: 0 <= k < |c.types| ==>
              DocumentLines(c, hash)[|Header(c.meta)| + k] == TypeBlock(c.types[k])
  {
    forall k | 0 <= k < |c.types|
      ensures DocumentLines(c, hash)[|Header(c.meta)| + k] == TypeBlock(c.types[k])
    {
      TypePlaced(c, hash, k);
    }
  }

  lemma TypePlaced(c: Contents, hash: string -> int, k: nat)
    requires k < |c.types|
    ensures DocumentLines(c, hash)[|Header(c.meta)| + k] == TypeBlock(c.types[k])
  {
    var head := Header(c.meta);
    var t := TypeBlocks(c.types);
    var fb := FunctionBlocks(c.functions);
    var notes := NoteLines(c.hierarchy, hash);
    Before(head + t + fb + notes, [Closing], |head| + k);
    Before(head + t + fb, notes, |head| + k);
    Before(head + t, fb, |head| + k);
    After(head, t, k);
  }

  lemma FunctionsPlaced(c: Contents, hash: string -> int)
    ensures forall k :: 0 <= k < |c.functions| ==>
              DocumentLines(c, hash)[|Header(c.meta)| + |c.types| + k] == FunctionBlock(c.functions[k])
  {
    forall k | 0 <= k < |c.functions|
      ensures DocumentLines(c, hash)[|Header(c.meta)| + |c.types| + k] == FunctionBlock(c.functions[k])
    {
      FunctionPlaced(c, hash, k);
    }
  }

  lemma FunctionPlaced(c: Contents, hash: string -> int, k: nat)
    requires k < |c.functions|
    ensures DocumentLines(c, hash)[|Header(c.meta)| + |c.types| + k] == FunctionBlock(c.functions[k])
  {
    var head := Header(c.meta);
    var t := TypeBlocks(c.types);
    var fb := FunctionBlocks(c.functions);
    var notes := NoteLines(c.hierarchy, hash);
    Before(head + t + fb + notes, [Closing], |head| + |t| + k);
    Before(head + t + fb, notes, |head| + |t| + k);
    After(head + t, fb, k);
  }

  lemma NotesPlaced(c: Contents, hash: string -> int)
    ensures forall k :: 0 <= k < |c.hierarchy| ==>
              DocumentLines(c, hash)[|Header(c.meta)| + |c.types| + |c.functions| + k]
              == NoteLine(c.hierarchy[k], hash)
  {
    forall k | 0 <= k < |c.hierarchy|
      ensures DocumentLines(c, hash)[|Header(c.meta)| + |c.types| + |c.functions| + k]
              == NoteLine(c.hierarchy[k], hash)
    {
      NotePlaced(c, hash, k);
    }
  }

  lemma NotePlaced(c: Contents, hash: string -> int, k: nat)
    requires k < |c.hierarchy|
    ensures DocumentLines(c, hash)[|Header(c.meta)| + |c.types| + |c.functions| + k] == NoteLine(c.hierarchy[k], hash)
  {
    var head := Header(c.meta);
    var t := TypeBlocks(c.types);
    var fb := FunctionBlocks(c.functions);
    var notes := NoteLines(c.hierarchy, hash);
    Before(head + t + fb + notes, [Closing], |head| + |t| + |fb| + k);
    After(head + t + fb, notes, k);
  }

  /** An entry of `a + b` before `|a|` is that of `a`. */
  lemma Before(a: seq<string>, b: seq<string>, i: nat)
    requires i < |a|
    ensures (a + b)[i] == a[i]
  {
  }

  /** The entry of `a + b` at `|a| + k` is that of `b`. */
  lemma After(a: seq<string>, b: seq<string>, k: nat)
    requires k < |b|
    ensures (a + b)[|a| + k] == b[k]
  {
  }

  /** The header's lines: `@startuml`, the skin parameter, then the title when there is
      metadata. */
  lemma HeaderLines(meta: Option<Meta>)
    ensures Header(meta)[0] == "@startuml" && Header(meta)[1] == "skinparam classAttributeIconSize 0"
    ensures meta.Some? ==> Header(meta)[2] == TitleLine(meta.value)
  {
  }

  /** The title is the only line that starts with `title `, so a document has a title
      exactly when the ontology has metadata. */
  lemma TitleIffMeta(c: Contents, hash: string -> int)
    ensures var lines := DocumentLines(c, hash);
            forall k :: 0 <= k < |lines| ==> (StartsWith(lines[k], "title ") <==> c.meta.Some? && k == 2)
  {
    forall k | 0 <= k < |DocumentLines(c, hash)|
      ensures StartsWith(DocumentLines(c, hash)[k], "title ") <==> c.meta.Some? && k == 2
    {
      LineIsTitle(c, hash, k);
    }
  }

  /** One line of the document starts with `title ` exactly when it is the title line. */
  lemma LineIsTitle(c: Contents, hash: string -> int, k: nat)
    requires k < |DocumentLines(c, hash)|
    ensures StartsWith(DocumentLines(c, hash)[k], "title ") <==> c.meta.Some? && k == 2
  {
    var head := Header(c.meta);
    var t := TypeBlocks(c.types);
    var fb := FunctionBlocks(c.functions);
    var notes := NoteLines(c.hierarchy, hash);
    if k < |head| {
      HeadPlaced(c, hash);
      if k == 2 {
        TitleLineStarts(c.meta.value);
      } else {
        NotTitle(Opening[k]);
      }
    } else if k < |head| + |t| {
      TypePlaced(c, hash, k - |head|);
      TypeBlockStarts(c.types[k - |head|]);
    } else if k < |head| + |t| + |fb| {
      FunctionPlaced(c, hash, k - |head| - |t|);
      FunctionBlockStarts(c.functions[k - |head| - |t|]);
    } else if k < |head| + |t| + |fb| + |notes| {
      NotePlaced(c, hash, k - |head| - |t| - |fb|);
      NoteLineStarts(c.hierarchy[k - |head| - |t| - |fb|], hash);
    } else {
      HeadPlaced(c, hash);
      NotTitle(Closing);
    }
  }

  /** A line whose first character is not `t` does not start with `title `. */
  lemma NotTitle(line: string)
    requires |line| > 0 && line[0] != 't'
    ensures !StartsWith(line, "title ")
  {
  }

  lemma TitleLineStarts(m: Meta)
    ensures StartsWith(TitleLine(m), "title ")
  {
    assert TitleLine(m)[..6] == "title ";
  }

  lemma TypeBlockStarts(t: Term)
    ensures !StartsWith(TypeBlock(t), "title ")
  {
    NotTitle(TypeBlock(t));
  }

  lemma FunctionBlockStarts(f: Function)
    ensures !StartsWith(FunctionBlock(f), "title ")
  {
    assert FunctionBlock(f)[0] == FunctionHead(f)[0];
    NotTitle(FunctionBlock(f));
  }

  lemma NoteLineStarts(r: Relationship, hash: string -> int)
    ensures !StartsWith(NoteLine(r, hash), "title ")
  {
    NotTitle(NoteLine(r, hash));
  }

  /** The joined document opens with `@startuml` on its own line and ends with
      `@enduml` on its own line. */
  lemma DocumentFraming(c: Contents, hash: string -> int)
    ensures var doc := Join(DocumentLines(c, hash), "\n");
            && |doc| >= 10 + 8
            && doc[..10] == "@startuml\n"
            && doc[|doc| - 8..] == "\n@enduml"
  {
    var lines := DocumentLines(c, hash);
    var body := lines[..|lines| - 1];
    assert lines == body + [Closing];
    JoinAppend(body, Closing, "\n");
    assert body[0] == "@startuml";
    JoinStartsWith(body, "\n");
    var rest := Join(body[1..], "\n");
    assert Join(body, "\n") == "@startuml" + "\n" + rest;
  }

  /** A type block is three lines: the class head, the description and the closing
      brace, when the name and the description hold no newline. */
  lemma TypeBlockLines(t: Term)
    requires '\n' !in t.name && '\n' !in P.Shown(t.description)
    ensures Split(TypeBlock(t), '\n') == ["class " + t.name + " {", "  " + P.Shown(t.description), "}"]
  {
    var parts := ["class " + t.name + " {", "  " + P.Shown(t.description), "}"];
    assert TypeBlock(t) == Join(parts, "\n");
    SplitJoin(parts, '\n');
  }

  lemma FunctionBlockJoined(f: Function)
    ensures FunctionBlock(f) == Join([FunctionHead(f), Signature(f), "  " + P.Shown(f.description), "}"], "\n")
  {
    var d := "  " + P.Shown(f.description);
    JoinFour(FunctionHead(f), Signature(f), d, "}", "\n");
    var x := FunctionHead(f) + "\n" + Signature(f) + "\n";
    assert x + "  " + P.Shown(f.description) == x + d;
    assert (x + d) + "\n}" == (x + d) + "\n" + "}";
  }

  /** A function block is four lines, the second being the signature, when no name,
      type name or description holds a newline. */
  lemma FunctionBlockLines(f: Function)
    requires '\n' !in f.name && '\n' !in P.Shown(f.description)
    requires forall k :: 0 <= k < |f.inputTypes| ==> '\n' !in f.inputTypes[k]
    requires forall k :: 0 <= k < |f.outputTypes| ==> '\n' !in f.outputTypes[k]
    ensures Split(FunctionBlock(f), '\n')
            == ["class " + f.name + " <<Function>> {",
                "  +" + f.name + "(" + Listed(f.inputTypes) + ") : (" + Listed(f.outputTypes) + ")",
                "  " + P.Shown(f.description), "}"]
  {
    JoinChars(f.inputTypes, ", ", '\n');
    JoinChars(f.outputTypes, ", ", '\n');
    FunctionBlockJoined(f);
    SplitJoin([FunctionHead(f), Signature(f), "  " + P.Shown(f.description), "}"], '\n');
  }

  /** The signature lists each input type once, in order: splitting its text at commas
      gives the first name, then the others each behind the space of their separator. */
  lemma SignatureInputs(f: Function)
    requires |f.inputTypes| >= 1 && forall k :: 0 <= k < |f.inputTypes| ==> ',' !in f.inputTypes[k]
    ensures Split(Listed(f.inputTypes), ',') == [f.inputTypes[0]] + SpaceLed(f.inputTypes[1..])
  {
    JoinCommaSpace(f.inputTypes);
  }
}

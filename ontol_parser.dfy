/** The actions of the Ontol parser (src/ontol/parser.py, class `Parser`): what each
    grammar action does to the ontology and to the warning list, the diagnostics it
    formats, and `parse` itself. The grammar that decides when each action runs is module
    OntolGrammar; this module runs the actions it reports, in order, until one raises.

    The specification is on values (`State`, `Apply`, `Run`, `ParseSpec`); class `Parser`
    holds the `Ontology` it fills in place and is proved against that specification. */
module OntolParser {
  import opened Wrappers
  import opened Text
  import opened OntolAst
  import opened OntolLexer
  import opened OntolGrammar

  /** The Python exception class a failed parse raises. */
  datatype ErrorKind = SyntaxError | ValueError | AttributeError

  datatype ParseError = ParseError(kind: ErrorKind, message: string)

  /** What a diagnostic needs besides its token: the input's lines and the file's path. */
  datatype Context = Context(lines: seq<string>, path: string)

  // ---------------------------------------------------------------------------------
  // Diagnostics (`_get_exception_message`)
  // ---------------------------------------------------------------------------------

  /** The length of `lines` with one line break after each: where the line after them starts. */
  function LinesWidth(lines: seq<string>): nat {
    if |lines| == 0 then 0 else LinesWidth(lines[..|lines| - 1]) + |lines[|lines| - 1]| + 1
  }

  /** The 0-based column of `tok` within its line, if the line exists. */
  function Column(ctx: Context, tok: Token): int {
    if 1 <= tok.line <= |ctx.lines| then tok.offset - LinesWidth(ctx.lines[..tok.line - 1]) else tok.offset
  }

  /** The source line a diagnostic echoes, or nothing when the token's line is not one of them. */
  function EchoedLine(ctx: Context, tok: Token): string {
    if 1 <= tok.line <= |ctx.lines| then ctx.lines[tok.line - 1] else ""
  }

  /** The caret line under the character at `column`: the four columns of line padding,
      then `column` spaces, then `^`. */
  function Caret(column: int): (r: string)
    ensures column >= 0 ==> |r| == 5 + column && r[4 + column] == '^'
    ensures forall k :: 0 <= k < |r| - 1 ==> r[k] == ' '
  {
    "    " + Spaces(column) + "^"
  }

  /** The caret line as src/ontol/parser.py:117-121 builds it: one space, the padding,
      then `column - 1` spaces, where Python's `" " * n` is empty for `n < 0`. */
  function CaretAsWritten(column: int): string {
    " " + "    " + Spaces(column - 1) + "^"
  }

  /** From column 1 on the two caret lines agree; at column 0 the source's caret is
      shifted one column right, under the second character of the line. */
  lemma CaretAsWrittenAgrees(column: int)
    ensures column >= 1 ==> CaretAsWritten(column) == Caret(column)
    ensures CaretAsWritten(0) == Caret(1) && CaretAsWritten(0) != Caret(0)
  {
    if column >= 1 {
      assert Spaces(column) == [' '] + Spaces(column - 1);
    }
    assert Spaces(1) == " ";
    assert |CaretAsWritten(0)| == 6 != |Caret(0)|;
  }

  /** A message with its first letter lower-cased, as the diagnostic quotes it. */
  function Lowered(message: string): (r: string)
    requires |message| > 0
    ensures |r| == |message| && r[1..] == message[1..]
    ensures 'A' <= message[0] <= 'Z' ==> r[0] as int == message[0] as int + 32
  {
    [LowerAscii(message[0])] + message[1..]
  }

  function Prefix(warning: bool): string {
    if warning then "Warning" else "Error"
  }

  /** `_get_exception_message(token, message, type)`: the file and line, the echoed
      source line, a caret under the token, then the lowered message. */
  function Diagnostic(ctx: Context, tok: Token, message: string, warning: bool): string
    requires |message| > 0
  {
    Join(["File \"" + ctx.path + "\", line " + NatToString(tok.line),
          "    " + EchoedLine(ctx, tok),
          Caret(Column(ctx, tok)),
          Prefix(warning) + ": " + Lowered(message)], "\n")
  }

  /** A diagnostic has four lines: the line number in decimal, the token's source line
      behind four columns of padding, a caret standing under the token's first character,
      and the message. */
  lemma DiagnosticLayout(ctx: Context, tok: Token, message: string, warning: bool)
    requires |message| > 0 && '\n' !in ctx.path && '\n' !in message
    requires 1 <= tok.line <= |ctx.lines| && '\n' !in ctx.lines[tok.line - 1]
    ensures var parts := Split(Diagnostic(ctx, tok, message, warning), '\n');
            var line := ctx.lines[tok.line - 1];
            var column := Column(ctx, tok);
            && parts == ["File \"" + ctx.path + "\", line " + NatToString(tok.line),
                         "    " + line, Caret(column), Prefix(warning) + ": " + Lowered(message)]
            && (0 <= column < |line| ==> parts[2][4 + column] == '^' && parts[1][4 + column] == line[column])
  {
    var header := "File \"" + ctx.path + "\", line ";
    var first := header + NatToString(tok.line);
    var parts := [first, "    " + EchoedLine(ctx, tok), Caret(Column(ctx, tok)),
                  Prefix(warning) + ": " + Lowered(message)];
    assert '\n' !in NatToString(tok.line) by {
      forall k | 0 <= k < |NatToString(tok.line)| ensures NatToString(tok.line)[k] != '\n' {
        assert IsDigit(NatToString(tok.line)[k]);
      }
    }
    assert '\n' !in first;
    assert '\n' !in parts[2];
    assert '\n' !in Lowered(message) by {
      assert Lowered(message)[1..] == message[1..];
      forall k | 0 <= k < |message| ensures Lowered(message)[k] != '\n' {
        if k > 0 { assert Lowered(message)[k] == message[1..][k - 1]; }
      }
    }
    assert '\n' !in parts[3];
    SplitJoin(parts, '\n');
  }

  // ---------------------------------------------------------------------------------
  // The parser's state as a value
  // ---------------------------------------------------------------------------------

  /** The ontology's four fields and the warning list. */
  datatype State = State(
    types: seq<Term>,
    functions: seq<Function>,
    hierarchy: seq<Relationship>,
    meta: Meta,
    warnings: seq<string>)

  /** The state after some actions, and the exception that stopped them, if any. */
  datatype Ran = Ran(state: State, error: Option<ParseError>)

  /** A warning at `tok`. */
  function Warning(ctx: Context, tok: Token, message: string): string
    requires |message| > 0
  {
    Diagnostic(ctx, tok, message, true)
  }

  /** The `ValueError` an action raises at `tok`. */
  function ValueErrorAt(ctx: Context, tok: Token, message: string): ParseError
    requires |message| > 0
  {
    ParseError(ValueError, Diagnostic(ctx, tok, message, false))
  }

  /** The warning an action adds when the string `tok` is empty (`if not p.STRING`). */
  function WarnIfEmpty(ctx: Context, tok: Token, message: string): (w: seq<string>)
    requires |message| > 0
    ensures |w| == if tok.value == "" then 1 else 0
  {
    if tok.value == "" then [Warning(ctx, tok, message)] else []
  }

  /** The message's subject for each meta statement (the `date:` statement's is "Date",
      the `type:` statement's is "Type"). */
  function FieldName(f: MetaField): string {
    match f
    case Version => "Version"
    case Title => "Title"
    case Author => "Author"
    case Description => "Description"
    case Date => "Date"
    case Kind => "Type"
  }

  function MetaGet(m: Meta, f: MetaField): Option<string> {
    match f
    case Version => m.version
    case Title => m.title
    case Author => m.author
    case Description => m.description
    case Date => m.date
    case Kind => m.kind
  }

  /** `meta.<field> = value`. */
  function MetaSet(m: Meta, f: MetaField, value: string): (r: Meta)
    ensures MetaGet(r, f) == Some(value)
    ensures forall g: MetaField :: g != f ==> MetaGet(r, g) == MetaGet(m, g)
  {
    match f
    case Version => m.(version := Some(value))
    case Title => m.(title := Some(value))
    case Author => m.(author := Some(value))
    case Description => m.(description := Some(value))
    case Date => m.(date := Some(value))
    case Kind => m.(kind := Some(value))
  }

  /** A meta statement `key: STRING NEWLINE` (src/ontol/parser.py:146-186): warn when the
      value is empty, then set the field. */
  function ApplyMeta(st: State, ctx: Context, field: MetaField, value: Token): (r: State)
    ensures r.types == st.types && r.functions == st.functions && r.hierarchy == st.hierarchy
    ensures MetaGet(r.meta, field) == Some(value.value)
    ensures forall g: MetaField :: g != field ==> MetaGet(r.meta, g) == MetaGet(st.meta, g)
    ensures |r.warnings| == |st.warnings| + (if value.value == "" then 1 else 0)
    ensures r.warnings[..|st.warnings|] == st.warnings
  {
    st.(meta := MetaSet(st.meta, field, value.value),
        warnings := st.warnings + WarnIfEmpty(ctx, value, FieldName(field) + " value is empty"))
  }

  /** The `attribute` action (src/ontol/parser.py:410-415): a warning for an empty value.
      The item itself is kept by the entry that owns the list. */
  function ApplyAttribute(st: State, ctx: Context, value: Token): (r: State)
    ensures r.(warnings := st.warnings) == st
    ensures |r.warnings| == |st.warnings| + (if value.value == "" then 1 else 0)
    ensures r.warnings[..|st.warnings|] == st.warnings
  {
    st.(warnings := st.warnings + WarnIfEmpty(ctx, value, "Attribute value is empty"))
  }

  /** The dictionary an attribute list builds (src/ontol/parser.py:394-408): `{}`, then
      `update` with each item's one-entry dictionary in order. */
  function MergeAttributes(items: seq<Item>): map<string, string> {
    if |items| == 0 then map[]
    else MergeAttributes(items[..|items| - 1])[items[|items| - 1].key.value := items[|items| - 1].value.value]
  }

  /** The dictionary has exactly the keys of the items. */
  lemma {:induction false} MergeAttributesKeys(items: seq<Item>, key: string)
    ensures key in MergeAttributes(items) <==> exists i :: 0 <= i < |items| && items[i].key.value == key
    decreases |items|
  {
    if |items| > 0 {
      var init := items[..|items| - 1];
      MergeAttributesKeys(init, key);
      assert forall i :: 0 <= i < |init| ==> init[i] == items[i];
      if key in MergeAttributes(init) {
        var i :| 0 <= i < |init| && init[i].key.value == key;
        assert items[i].key.value == key;
      }
    }
  }

  /** Later items win: a key holds the value of the last item that has it. */
  lemma {:induction false} MergeAttributesLastWins(items: seq<Item>, i: nat)
    requires i < |items|
    requires forall j :: i < j < |items| ==> items[j].key.value != items[i].key.value
    ensures items[i].key.value in MergeAttributes(items)
    ensures MergeAttributes(items)[items[i].key.value] == items[i].value.value
    decreases |items|
  {
    if i < |items| - 1 {
      var init := items[..|items| - 1];
      assert init[i] == items[i];
      MergeAttributesLastWins(init, i);
    }
  }

  /** A type entry (src/ontol/parser.py:201-227). */
  function ApplyType(st: State, ctx: Context, name: Token, labelText: Token, description: Token,
                     attributes: seq<Item>): (r: Ran)
    ensures r.error.Some? <==> exists k :: 0 <= k < |st.types| && st.types[k].name == name.value
    ensures r.error.Some? ==> r.state == st && r.error.value.kind == ValueError
    ensures r.error.None? ==>
              && r.state.types == st.types + [Term(name.value, labelText.value, description.value,
                                                   Dict(MergeAttributes(attributes)))]
              && r.state.functions == st.functions && r.state.hierarchy == st.hierarchy
              && r.state.meta == st.meta
              && |r.state.warnings| == |st.warnings| + (if labelText.value == "" then 1 else 0)
                                                      + (if description.value == "" then 1 else 0)
              && r.state.warnings[..|st.warnings|] == st.warnings
  {
    if FindTerm(st.types, name.value).Some? then
      Ran(st, Some(ValueErrorAt(ctx, name, "Type '" + name.value + "' has already been declared")))
    else
      var term := Term(name.value, labelText.value, description.value, Dict(MergeAttributes(attributes)));
      Ran(st.(types := st.types + [term],
              warnings := st.warnings + WarnIfEmpty(ctx, labelText, "Term label is empty")
                                      + WarnIfEmpty(ctx, description, "Term description is empty")),
          None)
  }

  /** The number of items whose value is the empty string. */
  function EmptyValues(items: seq<Item>): nat {
    if |items| == 0 then 0
    else EmptyValues(items[..|items| - 1]) + (if items[|items| - 1].value.value == "" then 1 else 0)
  }

  /** What the `params` action produced before it returned or raised. */
  datatype ParamsOutcome = ParamsOutcome(args: seq<FunctionArgument>, warnings: seq<string>, error: Option<ParseError>)

  /** The `params` action (src/ontol/parser.py:284-312) over the parameters in order: each
      one's term looked up, a warning for an empty label, and a `ValueError` at the first
      parameter whose term is undefined, after which nothing more happens. */
  function ResolveParams(types: seq<Term>, ctx: Context, params: seq<Item>): (r: ParamsOutcome)
    ensures |r.args| <= |params|
    ensures forall k :: 0 <= k < |r.args| ==>
              FindTerm(types, params[k].key.value) == Some(r.args[k].term) && r.args[k].labelText == params[k].value.value
    ensures r.error.None? ==> |r.args| == |params|
    ensures r.error.Some? ==> |r.args| < |params| && FindTerm(types, params[|r.args|].key.value).None?
                              && r.error.value.kind == ValueError
    decreases |params|
  {
    if |params| == 0 then ParamsOutcome([], [], None)
    else
      var init := ResolveParams(types, ctx, params[..|params| - 1]);
      var p := params[|params| - 1];
      if init.error.Some? then init
      else match FindTerm(types, p.key.value)
        case None => ParamsOutcome(init.args, init.warnings, Some(ValueErrorAt(ctx, p.key, "Undefined term")))
        case Some(term) =>
          ParamsOutcome(init.args + [FunctionArgument(term, p.value.value)],
                        init.warnings + WarnIfEmpty(ctx, p.value, "Parameter label is empty"), None)
  }

  /** Once a parameter has raised, the later ones change nothing. */
  lemma {:induction false} ResolveParamsStops(types: seq<Term>, ctx: Context, params: seq<Item>, i: nat)
    requires i <= |params| && ResolveParams(types, ctx, params[..i]).error.Some?
    ensures ResolveParams(types, ctx, params) == ResolveParams(types, ctx, params[..i])
    decreases |params|
  {
    if i < |params| {
      assert params[..|params| - 1][..i] == params[..i];
      ResolveParamsStops(types, ctx, params[..|params| - 1], i);
    } else {
      assert params[..i] == params;
    }
  }

  /** A parameter whose term is found adds its argument and its label's warning. */
  lemma ResolveParamsNext(types: seq<Term>, ctx: Context, params: seq<Item>, i: nat,
                          args: seq<FunctionArgument>, warnings: seq<string>, term: Term)
    requires i < |params| && ResolveParams(types, ctx, params[..i]) == ParamsOutcome(args, warnings, None)
    requires FindTerm(types, params[i].key.value) == Some(term)
    ensures ResolveParams(types, ctx, params[..i + 1])
            == ParamsOutcome(args + [FunctionArgument(term, params[i].value.value)],
                             warnings + WarnIfEmpty(ctx, params[i].value, "Parameter label is empty"), None)
  {
    assert params[..i + 1][..i] == params[..i];
  }

  /** A parameter whose term is undefined raises, and the outcome is final. */
  lemma ResolveParamsUndefined(types: seq<Term>, ctx: Context, params: seq<Item>, i: nat,
                               args: seq<FunctionArgument>, warnings: seq<string>)
    requires i < |params| && ResolveParams(types, ctx, params[..i]) == ParamsOutcome(args, warnings, None)
    requires FindTerm(types, params[i].key.value).None?
    ensures ResolveParams(types, ctx, params)
            == ParamsOutcome(args, warnings, Some(ValueErrorAt(ctx, params[i].key, "Undefined term")))
  {
    assert params[..i + 1][..i] == params[..i];
    ResolveParamsStops(types, ctx, params, i + 1);
  }

  /** The `params` action raises exactly when some parameter names an undefined term, and
      every term it resolved is one of `types`. */
  lemma ResolveParamsFails(types: seq<Term>, ctx: Context, params: seq<Item>)
    ensures var r := ResolveParams(types, ctx, params);
            && (r.error.None? <==> forall k :: 0 <= k < |params| ==> FindTerm(types, params[k].key.value).Some?)
            && ArgumentsResolved(r.args, types)
  {
    var r := ResolveParams(types, ctx, params);
    forall k | 0 <= k < |r.args| ensures r.args[k].term in types {
      assert FindTerm(types, params[k].key.value) == Some(r.args[k].term);
    }
  }

  /** A successful `params` action warns once per empty parameter label. */
  lemma {:induction false} ResolveParamsWarnings(types: seq<Term>, ctx: Context, params: seq<Item>)
    ensures ResolveParams(types, ctx, params).error.None? ==> |ResolveParams(types, ctx, params).warnings| == EmptyValues(params)
    decreases |params|
  {
    if |params| > 0 {
      ResolveParamsWarnings(types, ctx, params[..|params| - 1]);
    }
  }

  /** A function entry (src/ontol/parser.py:242-282). `arguments` is the list the
      `params` action returned. */
  function ApplyFunction(st: State, ctx: Context, name: Token, labelText: Token, arguments: seq<FunctionArgument>,
                         output: Token, outputLabel: Token, attributes: seq<Item>): (r: Ran)
    ensures r.error.Some? <==> (exists k :: 0 <= k < |st.functions| && st.functions[k].name == name.value)
                               || (forall k :: 0 <= k < |st.types| ==> st.types[k].name != output.value)
    ensures r.error.Some? ==> r.state == st && r.error.value.kind == ValueError
    ensures r.error.None? ==>
              && r.state.types == st.types && r.state.hierarchy == st.hierarchy && r.state.meta == st.meta
              && |r.state.functions| == |st.functions| + 1
              && r.state.functions[..|st.functions|] == st.functions
              && (var f := r.state.functions[|st.functions|];
                  && f.name == name.value && f.labelText == labelText.value && f.inputTypes == arguments
                  && f.outputType.term in st.types && f.outputType.term.name == output.value
                  && f.outputType.labelText == outputLabel.value
                  && f.attributes == Dict(MergeAttributes(attributes)))
              && |r.state.warnings| == |st.warnings| + (if labelText.value == "" then 1 else 0)
                                                      + (if outputLabel.value == "" then 1 else 0)
              && r.state.warnings[..|st.warnings|] == st.warnings
  {
    if FindFunction(st.functions, name.value).Some? then
      Ran(st, Some(ValueErrorAt(ctx, name, "Function '" + name.value + "' has already been declared")))
    else match FindTerm(st.types, output.value)
      case None => Ran(st, Some(ValueErrorAt(ctx, output, "Undefined term")))
      case Some(term) =>
        var f := Function(name.value, labelText.value, arguments, FunctionArgument(term, outputLabel.value),
                          Dict(MergeAttributes(attributes)));
        Ran(st.(functions := st.functions + [f],
                warnings := st.warnings + WarnIfEmpty(ctx, labelText, "Label is empty")
                                        + WarnIfEmpty(ctx, outputLabel, "Output term label is empty")),
            None)
  }

  /** A hierarchy entry (src/ontol/parser.py:345-378): the parent, the relationship tag
      and the child are checked in that order. */
  function ApplyHierarchy(st: State, ctx: Context, parent: Token, tag: Token, child: Token,
                          attributes: seq<Item>): (r: Ran)
    ensures r.error.Some? <==> FindTerm(st.types, parent.value).None? || TypeFromStr(tag.value).None?
                               || FindTerm(st.types, child.value).None?
    ensures r.error.Some? ==> r.state == st && r.error.value.kind == ValueError
    ensures r.error.None? ==>
              && r.state.(hierarchy := st.hierarchy) == st
              && |r.state.hierarchy| == |st.hierarchy| + 1
              && r.state.hierarchy[..|st.hierarchy|] == st.hierarchy
              && (var rel := r.state.hierarchy[|st.hierarchy|];
                  && rel.parent in st.types && rel.parent.name == parent.value
                  && rel.relationship.Value() == tag.value
                  && |rel.children| == 1 && rel.children[0] in st.types && rel.children[0].name == child.value
                  && rel.attributes == Dict(MergeAttributes(attributes)))
  {
    match FindTerm(st.types, parent.value)
    case None => Ran(st, Some(ValueErrorAt(ctx, parent, "Undefined term")))
    case Some(p) =>
      match TypeFromStr(tag.value)
      case None => Ran(st, Some(ValueErrorAt(ctx, tag, "Unexpected relationship type")))
      case Some(kind) =>
        match FindTerm(st.types, child.value)
        case None => Ran(st, Some(ValueErrorAt(ctx, child, "Undefined term")))
        case Some(c) =>
          Ran(st.(hierarchy := st.hierarchy + [Relationship(p, kind, [c], Dict(MergeAttributes(attributes)))]), None)
  }

  /** One action's effect, with the argument list the last `params` action left for the
      function entry that follows it. */
  datatype Stepped = Stepped(ran: Ran, pending: seq<FunctionArgument>)

  function Apply(st: State, pending: seq<FunctionArgument>, ctx: Context, ev: Event): Stepped {
    match ev
    case MetaStatement(field, value) => Stepped(Ran(ApplyMeta(st, ctx, field, value), None), pending)
    case AttributeRead(_, value) => Stepped(Ran(ApplyAttribute(st, ctx, value), None), pending)
    case ParamsRead(params) =>
      var o := ResolveParams(st.types, ctx, params);
      Stepped(Ran(st.(warnings := st.warnings + o.warnings), o.error), o.args)
    case TypeEntry(name, labelText, description, attributes) =>
      Stepped(ApplyType(st, ctx, name, labelText, description, attributes), pending)
    case FunctionEntry(name, labelText, _, output, outputLabel, attributes) =>
      Stepped(ApplyFunction(st, ctx, name, labelText, pending, output, outputLabel, attributes), pending)
    case HierarchyEntry(parent, tag, child, attributes) =>
      Stepped(ApplyHierarchy(st, ctx, parent, tag, child, attributes), pending)
  }

  /** The actions in order, stopping at the first that raises. */
  function Run(st: State, pending: seq<FunctionArgument>, ctx: Context, events: seq<Event>): Ran
    decreases |events|
  {
    if |events| == 0 then Ran(st, None)
    else
      var s := Apply(st, pending, ctx, events[0]);
      if s.ran.error.Some? then s.ran else Run(s.ran.state, s.pending, ctx, events[1..])
  }

  /** The exception `error` raises (src/ontol/parser.py:421-431), or the lexer's
      (src/ontol/parser.py:78-80). */
  function FaultError(ctx: Context, f: Fault): (e: ParseError)
    ensures e.kind == SyntaxError
  {
    match f
    case Unexpected(t) => ParseError(SyntaxError, Diagnostic(ctx, t, "Syntax error " + t.kind.Name(), false))
    case AtEof => ParseError(SyntaxError, "Syntax error at EOF")
    case IllegalChar(c) => ParseError(SyntaxError, "Illegal character '" + [c] + "'")
  }

  /** The `program` action with the date field the metadata has (src/ontol/parser.py:132-136
      reads and writes `date_created` instead; see `ProgramAsWritten`): an absent or empty
      date becomes `today`. */
  function Finish(st: State, today: string): (r: State)
    ensures r.(meta := st.meta) == st
    ensures forall g: MetaField :: g != Date ==> MetaGet(r.meta, g) == MetaGet(st.meta, g)
    ensures r.meta.date.Some?
    ensures st.meta.date.Some? && st.meta.date.value != "" ==> r.meta.date == st.meta.date
    ensures (st.meta.date.None? || st.meta.date == Some("")) ==> r.meta.date == Some(today)
  {
    if st.meta.date.None? || st.meta.date == Some("") then st.(meta := MetaSet(st.meta, Date, today)) else st
  }

  /** `parse(file_content, file_path)` on a parser in state `st0`, with `today` for the clock:
      the warnings are cleared, the tokens recognised and the actions run in order; an
      action's exception, or else the grammar's fault, ends the parse with the state the
      earlier actions left; otherwise the `program` action runs. */
  function ParseSpec(st0: State, text: string, path: string, today: string): Ran {
    var ctx := Context(SplitLines(text), path);
    var rec := Recognise(Lex(text));
    Settle(Run(st0.(warnings := []), [], ctx, rec.events), rec.fault, ctx, today)
  }

  /** The end of `parse` once the actions ran: their exception stands, else the grammar's
      fault raises, else the `program` action completes the metadata. Only the metadata
      can change, and a parse that raises nothing has a date. */
  function Settle(ran: Ran, fault: Option<Fault>, ctx: Context, today: string): (r: Ran)
    ensures r.state.(meta := ran.state.meta) == ran.state
    ensures ran.error.Some? ==> r == ran
    ensures r.error.None? <==> ran.error.None? && fault.None?
    ensures r.error.None? ==> r.state.meta.date.Some?
  {
    if ran.error.Some? then ran
    else if fault.Some? then Ran(ran.state, Some(FaultError(ctx, fault.value)))
    else Ran(Finish(ran.state, today), None)
  }

  // ---------------------------------------------------------------------------------
  // What parsing preserves
  // ---------------------------------------------------------------------------------

  ghost predicate StateConsistent(st: State) {
    Consistent(st.types, st.functions, st.hierarchy)
  }

  ghost predicate ArgumentsResolved(arguments: seq<FunctionArgument>, types: seq<Term>) {
    forall k :: 0 <= k < |arguments| ==> arguments[k].term in types
  }

  /** `after` only appended to `before`'s types, functions and relationships. */
  ghost predicate Extends(before: State, after: State) {
    && |before.types| <= |after.types| && after.types[..|before.types|] == before.types
    && |before.functions| <= |after.functions| && after.functions[..|before.functions|] == before.functions
    && |before.hierarchy| <= |after.hierarchy| && after.hierarchy[..|before.hierarchy|] == before.hierarchy
  }

  lemma ExtendsTransitive(a: State, b: State, c: State)
    requires Extends(a, b) && Extends(b, c)
    ensures Extends(a, c)
  {
    assert c.types[..|a.types|] == c.types[..|b.types|][..|a.types|];
    assert c.functions[..|a.functions|] == c.functions[..|b.functions|][..|a.functions|];
    assert c.hierarchy[..|a.hierarchy|] == c.hierarchy[..|b.hierarchy|][..|a.hierarchy|];
  }

  /** A type entry keeps names distinct and, since it only adds a term, every reference
      resolved. */
  lemma ApplyTypeKeepsConsistent(st: State, ctx: Context, name: Token, labelText: Token, description: Token,
                                 attributes: seq<Item>)
    requires StateConsistent(st)
    ensures var r := ApplyType(st, ctx, name, labelText, description, attributes);
            StateConsistent(r.state) && Extends(st, r.state)
  {
    var r := ApplyType(st, ctx, name, labelText, description, attributes);
    if r.error.None? {
      var ts := r.state.types;
      assert forall i :: 0 <= i < |st.types| ==> ts[i] == st.types[i];
      forall k | 0 <= k < |st.functions| ensures FunctionResolved(st.functions[k], ts) {
        var f := st.functions[k];
        assert FunctionResolved(f, st.types);
        assert forall t :: t in st.types ==> t in ts;
      }
      forall k | 0 <= k < |st.hierarchy| ensures RelationshipResolved(st.hierarchy[k], ts) {
        assert RelationshipResolved(st.hierarchy[k], st.types);
        assert forall t :: t in st.types ==> t in ts;
      }
    }
  }

  lemma ApplyFunctionKeepsConsistent(st: State, ctx: Context, name: Token, labelText: Token,
                                     arguments: seq<FunctionArgument>, output: Token, outputLabel: Token,
                                     attributes: seq<Item>)
    requires StateConsistent(st) && ArgumentsResolved(arguments, st.types)
    ensures var r := ApplyFunction(st, ctx, name, labelText, arguments, output, outputLabel, attributes);
            StateConsistent(r.state) && Extends(st, r.state)
  {
    var r := ApplyFunction(st, ctx, name, labelText, arguments, output, outputLabel, attributes);
    if r.error.None? {
      var fs := r.state.functions;
      var f := fs[|st.functions|];
      assert fs == st.functions + [f];
      assert FunctionResolved(f, st.types);
      FunctionAppendConsistent(st.types, st.functions, st.hierarchy, f);
    }
  }

  /** A resolved function under a fresh name keeps the ontology consistent. */
  lemma FunctionAppendConsistent(types: seq<Term>, functions: seq<Function>, hierarchy: seq<Relationship>, f: Function)
    requires Consistent(types, functions, hierarchy) && FunctionResolved(f, types)
    requires forall k :: 0 <= k < |functions| ==> functions[k].name != f.name
    ensures Consistent(types, functions + [f], hierarchy)
  {
    var fs := functions + [f];
    assert forall k :: 0 <= k < |functions| ==> fs[k] == functions[k];
  }

  lemma ApplyHierarchyKeepsConsistent(st: State, ctx: Context, parent: Token, tag: Token, child: Token,
                                      attributes: seq<Item>)
    requires StateConsistent(st)
    ensures var r := ApplyHierarchy(st, ctx, parent, tag, child, attributes);
            StateConsistent(r.state) && Extends(st, r.state)
  {
    var r := ApplyHierarchy(st, ctx, parent, tag, child, attributes);
    if r.error.None? {
      var hs := r.state.hierarchy;
      assert forall i :: 0 <= i < |st.hierarchy| ==> hs[i] == st.hierarchy[i];
      assert RelationshipResolved(hs[|st.hierarchy|], st.types);
    }
  }

  lemma ApplyKeepsConsistent(st: State, pending: seq<FunctionArgument>, ctx: Context, ev: Event)
    requires StateConsistent(st) && ArgumentsResolved(pending, st.types)
    ensures var s := Apply(st, pending, ctx, ev);
            StateConsistent(s.ran.state) && Extends(st, s.ran.state) && ArgumentsResolved(s.pending, s.ran.state.types)
  {
    var s := Apply(st, pending, ctx, ev);
    match ev
    case MetaStatement(field, value) =>
    case AttributeRead(_, value) =>
    case ParamsRead(params) =>
    case TypeEntry(name, labelText, description, attributes) =>
      ApplyTypeKeepsConsistent(st, ctx, name, labelText, description, attributes);
      assert forall t :: t in st.types ==> t in s.ran.state.types;
    case FunctionEntry(name, labelText, _, output, outputLabel, attributes) =>
      ApplyFunctionKeepsConsistent(st, ctx, name, labelText, pending, output, outputLabel, attributes);
    case HierarchyEntry(parent, tag, child, attributes) =>
      ApplyHierarchyKeepsConsistent(st, ctx, parent, tag, child, attributes);
  }

  /** Running actions keeps the ontology consistent and only appends to it, whether or not
      an action raises: the entries made before an exception stay. */
  lemma {:induction false} RunKeepsConsistent(st: State, pending: seq<FunctionArgument>, ctx: Context,
                                             events: seq<Event>)
    requires StateConsistent(st) && ArgumentsResolved(pending, st.types)
    ensures StateConsistent(Run(st, pending, ctx, events).state)
    ensures Extends(st, Run(st, pending, ctx, events).state)
    decreases |events|
  {
    if |events| > 0 {
      var s := Apply(st, pending, ctx, events[0]);
      ApplyKeepsConsistent(st, pending, ctx, events[0]);
      if s.ran.error.None? {
        RunKeepsConsistent(s.ran.state, s.pending, ctx, events[1..]);
        ExtendsTransitive(st, s.ran.state, Run(s.ran.state, s.pending, ctx, events[1..]).state);
      }
    }
  }

  /** A parse of any text, successful or not, leaves a consistent ontology consistent:
      term and function names stay distinct and every reference names a declared term.
      It only ever appends to the ontology; a successful parse also leaves a date set. */
  lemma ParseKeepsConsistent(st0: State, text: string, path: string, today: string)
    requires StateConsistent(st0)
    ensures StateConsistent(ParseSpec(st0, text, path, today).state)
    ensures Extends(st0, ParseSpec(st0, text, path, today).state)
    ensures ParseSpec(st0, text, path, today).error.None? ==> ParseSpec(st0, text, path, today).state.meta.date.Some?
  {
    var ctx := Context(SplitLines(text), path);
    var rec := Recognise(Lex(text));
    RunKeepsConsistent(st0.(warnings := []), [], ctx, rec.events);
  }

  // ---------------------------------------------------------------------------------
  // The `program` action as written
  // ---------------------------------------------------------------------------------

  /** `date_created` after the events: the value of the last `date:` statement, or what it
      was before. The source's `date:` statement writes this attribute, which `Meta` does
      not declare, instead of `date`. */
  function DateCreatedAfter(before: Option<string>, events: seq<Event>): (r: Option<string>)
    ensures r.None? ==> before.None?
    ensures (forall k :: 0 <= k < |events| ==> !(events[k].MetaStatement? && events[k].field == Date)) ==> r == before
    decreases |events|
  {
    if |events| == 0 then before
    else
      var next := if events[0].MetaStatement? && events[0].field == Date then Some(events[0].value.value) else before;
      assert forall k :: 1 <= k < |events| ==> events[1..][k - 1] == events[k];
      DateCreatedAfter(next, events[1..])
  }

  /** src/ontol/parser.py:132-136 as written: reading `meta.date_created` raises an
      `AttributeError` unless a `date:` statement has set it. */
  function ProgramAsWritten(dateCreated: Option<string>, today: string): (r: Result<string, ParseError>)
    ensures r.Failure? <==> dateCreated.None?
    ensures r.Failure? ==> r.error.kind == AttributeError
    ensures dateCreated.Some? && dateCreated.value != "" ==> r == Success(dateCreated.value)
  {
    match dateCreated
    case None => Failure(ParseError(AttributeError, "'Meta' object has no attribute 'date_created'"))
    case Some(d) => Success(if d == "" then today else d)
  }

  /** The empty file recognises to no actions and no fault. */
  lemma EmptyTextHasNoEvents()
    ensures Recognise(Lex("")) == Recognised([], None)
  {
    assert Lex("") == Lexed([], None);
  }

  /** On a fresh parser, every text without a `date:` statement that gets as far as the
      `program` action fails there as written; the empty file is one. */
  lemma UndatedTextFailsAsWritten(text: string, today: string)
    ensures var rec := Recognise(Lex(text));
            (forall k :: 0 <= k < |rec.events| ==> !(rec.events[k].MetaStatement? && rec.events[k].field == Date))
            ==> ProgramAsWritten(DateCreatedAfter(None, rec.events), today).Failure?
    ensures ProgramAsWritten(DateCreatedAfter(None, Recognise(Lex("")).events), today).Failure?
  {
    EmptyTextHasNoEvents();
  }

  /** With the corrected field the empty file parses, to an empty ontology dated `today`. */
  lemma EmptyTextParses(path: string, today: string)
    ensures ParseSpec(State([], [], [], NoMeta, []), "", path, today)
            == Ran(State([], [], [], NoMeta.(date := Some(today)), []), None)
  {
    EmptyTextHasNoEvents();
  }

  // ---------------------------------------------------------------------------------
  // The parser object
  // ---------------------------------------------------------------------------------

  /** `Parser`: an ontology filled in place across calls to `Parse`, the warnings of the
      latest call, and the lines and path its diagnostics quote. */
  class Parser {
    const ontology: Ontology
    var warnings: seq<string>
    var lines: seq<string>
    var filePath: string

    /** `Parser()`: a fresh, empty ontology and no warnings. */
    constructor()
      ensures fresh(ontology)
      ensures Snapshot() == State([], [], [], NoMeta, [])
      ensures StateConsistent(Snapshot())
    {
      ontology := new Ontology();
      warnings := [];
      lines := [];
      filePath := "";
    }

    function Snapshot(): State
      reads this, ontology
    {
      State(ontology.types, ontology.functions, ontology.hierarchy, ontology.meta, warnings)
    }

    function Ctx(): Context
      reads this
    {
      Context(lines, filePath)
    }

    /** `_add_warning` (src/ontol/parser.py:128-130). */
    method AddWarning(tok: Token, message: string)
      requires |message| > 0
      modifies this
      ensures warnings == old(warnings) + [Warning(Ctx(), tok, message)]
      ensures lines == old(lines) && filePath == old(filePath)
    {
      warnings := warnings + [Warning(Ctx(), tok, message)];
    }

    method WarnIfEmptyValue(tok: Token, message: string)
      requires |message| > 0
      modifies this
      ensures warnings == old(warnings) + WarnIfEmpty(Ctx(), tok, message)
      ensures lines == old(lines) && filePath == old(filePath)
    {
      if tok.value == "" {
        AddWarning(tok, message);
      }
    }

    method MetaAction(field: MetaField, value: Token)
      modifies this, ontology
      ensures Snapshot() == ApplyMeta(old(Snapshot()), Ctx(), field, value)
      ensures lines == old(lines) && filePath == old(filePath)
    {
      WarnIfEmptyValue(value, FieldName(field) + " value is empty");
      ontology.SetMeta(MetaSet(ontology.meta, field, value.value));
    }

    method AttributeAction(value: Token)
      modifies this
      ensures Snapshot() == ApplyAttribute(old(Snapshot()), Ctx(), value)
      ensures lines == old(lines) && filePath == old(filePath)
    {
      WarnIfEmptyValue(value, "Attribute value is empty");
    }

    method TypeAction(name: Token, labelText: Token, description: Token, attributes: seq<Item>)
      returns (err: Option<ParseError>)
      modifies this, ontology
      ensures Ran(Snapshot(), err) == ApplyType(old(Snapshot()), Ctx(), name, labelText, description, attributes)
      ensures lines == old(lines) && filePath == old(filePath)
    {
      var existing := ontology.FindTermByName(name.value);
      if existing.Some? {
        return Some(ValueErrorAt(Ctx(), name, "Type '" + name.value + "' has already been declared"));
      }
      var term := Term(name.value, labelText.value, description.value, Dict(MergeAttributes(attributes)));
      WarnIfEmptyValue(labelText, "Term label is empty");
      WarnIfEmptyValue(description, "Term description is empty");
      ontology.AddType(term);
      err := None;
    }

    /** The `params` action: look each parameter's term up, in order. */
    method ParamsAction(params: seq<Item>) returns (arguments: seq<FunctionArgument>, err: Option<ParseError>)
      modifies this
      ensures var o := ResolveParams(ontology.types, Ctx(), params);
              arguments == o.args && err == o.error && warnings == old(warnings) + o.warnings
      ensures lines == old(lines) && filePath == old(filePath)
    {
      ghost var start := warnings;
      ghost var added: seq<string> := [];
      arguments := [];
      err := None;
      var i := 0;
      while i < |params|
        invariant i <= |params|
        invariant lines == old(lines) && filePath == old(filePath) && warnings == start + added
        invariant ResolveParams(ontology.types, Ctx(), params[..i]) == ParamsOutcome(arguments, added, None)
        invariant err.None?
      {
        arguments, added, err := ParamAction(params, i, arguments, added, start);
        if err.Some? {
          return;
        }
        i := i + 1;
      }
      assert params[..i] == params;
    }

    /** One parameter of the `params` action: its argument and its label's warning, or the
        error for an undefined term, which ends the action. */
    method ParamAction(params: seq<Item>, i: nat, arguments: seq<FunctionArgument>, ghost added: seq<string>,
                       ghost start: seq<string>)
      returns (next: seq<FunctionArgument>, ghost nextAdded: seq<string>, err: Option<ParseError>)
      requires i < |params| && warnings == start + added
      requires ResolveParams(ontology.types, Ctx(), params[..i]) == ParamsOutcome(arguments, added, None)
      modifies this
      ensures lines == old(lines) && filePath == old(filePath) && warnings == start + nextAdded
      ensures err.Some? ==> next == arguments && nextAdded == added
                            && ResolveParams(ontology.types, Ctx(), params) == ParamsOutcome(arguments, added, err)
      ensures err.None? ==> ResolveParams(ontology.types, Ctx(), params[..i + 1]) == ParamsOutcome(next, nextAdded, None)
    {
      var p := params[i];
      var term := ontology.FindTermByName(p.key.value);
      assert term == FindTerm(ontology.types, p.key.value);
      if term.None? {
        err := Some(ValueErrorAt(Ctx(), p.key, "Undefined term"));
        ResolveParamsUndefined(ontology.types, Ctx(), params, i, arguments, added);
        next, nextAdded := arguments, added;
        return;
      }
      ResolveParamsNext(ontology.types, Ctx(), params, i, arguments, added, term.value);
      WarnIfEmptyValue(p.value, "Parameter label is empty");
      nextAdded := added + WarnIfEmpty(Ctx(), p.value, "Parameter label is empty");
      next := arguments + [FunctionArgument(term.value, p.value.value)];
      err := None;
    }

    method FunctionAction(name: Token, labelText: Token, arguments: seq<FunctionArgument>, output: Token,
                          outputLabel: Token, attributes: seq<Item>) returns (err: Option<ParseError>)
      modifies this, ontology
      ensures Ran(Snapshot(), err)
              == ApplyFunction(old(Snapshot()), Ctx(), name, labelText, arguments, output, outputLabel, attributes)
      ensures lines == old(lines) && filePath == old(filePath)
    {
      var existing := ontology.FindFunctionByName(name.value);
      if existing.Some? {
        return Some(ValueErrorAt(Ctx(), name, "Function '" + name.value + "' has already been declared"));
      }
      var outputTerm := ontology.FindTermByName(output.value);
      if outputTerm.None? {
        return Some(ValueErrorAt(Ctx(), output, "Undefined term"));
      }
      var f := Function(name.value, labelText.value, arguments, FunctionArgument(outputTerm.value, outputLabel.value),
                        Dict(MergeAttributes(attributes)));
      WarnIfEmptyValue(labelText, "Label is empty");
      WarnIfEmptyValue(outputLabel, "Output term label is empty");
      ontology.AddFunction(f);
      err := None;
    }

    method HierarchyAction(parent: Token, tag: Token, child: Token, attributes: seq<Item>)
      returns (err: Option<ParseError>)
      modifies ontology
      ensures Ran(Snapshot(), err) == ApplyHierarchy(old(Snapshot()), Ctx(), parent, tag, child, attributes)
    {
      var parentTerm := ontology.FindTermByName(parent.value);
      if parentTerm.None? {
        return Some(ValueErrorAt(Ctx(), parent, "Undefined term"));
      }
      var kind := TypeFromStr(tag.value);
      if kind.None? {
        return Some(ValueErrorAt(Ctx(), tag, "Unexpected relationship type"));
      }
      var childTerm := ontology.FindTermByName(child.value);
      if childTerm.None? {
        return Some(ValueErrorAt(Ctx(), child, "Undefined term"));
      }
      ontology.AddRelationship(Relationship(parentTerm.value, kind.value, [childTerm.value],
                                            Dict(MergeAttributes(attributes))));
      err := None;
    }

    /** Runs the action of one grammar event; `pending` is the argument list of the last
        `params` action. */
    method Step(pending: seq<FunctionArgument>, ev: Event) returns (next: seq<FunctionArgument>, err: Option<ParseError>)
      modifies this, ontology
      ensures Stepped(Ran(Snapshot(), err), next) == Apply(old(Snapshot()), pending, Ctx(), ev)
      ensures lines == old(lines) && filePath == old(filePath)
    {
      next := pending;
      err := None;
      match ev {
        case MetaStatement(field, value) =>
          MetaAction(field, value);
        case AttributeRead(_, value) =>
          AttributeAction(value);
        case ParamsRead(params) =>
          next, err := ParamsAction(params);
        case TypeEntry(name, labelText, description, attributes) =>
          err := TypeAction(name, labelText, description, attributes);
        case FunctionEntry(name, labelText, _, output, outputLabel, attributes) =>
          err := FunctionAction(name, labelText, pending, output, outputLabel, attributes);
        case HierarchyEntry(parent, tag, child, attributes) =>
          err := HierarchyAction(parent, tag, child, attributes);
      }
    }

    /** The `program` action, with the corrected date field. */
    method ProgramAction(today: string)
      modifies ontology
      ensures Snapshot() == Finish(old(Snapshot()), today)
    {
      if ontology.meta.date.None? || ontology.meta.date == Some("") {
        ontology.SetMeta(MetaSet(ontology.meta, Date, today));
      }
    }

    /** The reductions of `parse`, one event after another, until the first exception. */
    method RunEvents(events: seq<Event>) returns (err: Option<ParseError>)
      modifies this, ontology
      ensures Ran(Snapshot(), err) == Run(old(Snapshot()), [], Ctx(), events)
      ensures lines == old(lines) && filePath == old(filePath)
    {
      ghost var st0 := Snapshot();
      ghost var ctx := Ctx();
      var pending: seq<FunctionArgument> := [];
      var i := 0;
      while i < |events|
        invariant i <= |events|
        invariant lines == old(lines) && filePath == old(filePath) && Ctx() == ctx
        invariant Run(st0, [], ctx, events) == Run(Snapshot(), pending, ctx, events[i..])
      {
        assert events[i..][1..] == events[i + 1..];
        pending, err := Step(pending, events[i]);
        if err.Some? {
          return;
        }
        i := i + 1;
      }
      err := None;
    }

    /** `parse(file_content, file_path)` (src/ontol/parser.py:91-102), with `today` for the
        clock. On success it returns the warnings; the ontology is `ontology`, which keeps
        what earlier calls added. On failure the entries added before the exception stay. */
    method Parse(text: string, path: string, today: string) returns (r: Result<seq<string>, ParseError>)
      modifies this, ontology
      ensures Ran(Snapshot(), if r.Failure? then Some(r.error) else None) == ParseSpec(old(Snapshot()), text, path, today)
      ensures r.Success? ==> r.value == warnings
      ensures lines == SplitLines(text) && filePath == path
    {
      ghost var st0 := old(Snapshot());
      warnings := [];
      lines := SplitLines(text);
      filePath := path;
      var lx := Tokenize(text);
      var rec := Recognise(lx);
      var err := RunEvents(rec.events);
      if err.Some? {
        return Failure(err.value);
      }
      if rec.fault.Some? {
        return Failure(FaultError(Ctx(), rec.fault.value));
      }
      ProgramAction(today);
      r := Success(warnings);
    }
  }
}

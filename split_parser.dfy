/** The split-based prototype parser (parser/parser.py). Each trimmed line is dispatched on
    its first characters and cut into whitespace-separated words. Python's exceptions become
    `Failure` values: a line with too few words raises IndexError at `parts[i]`, and a second
    `meta` line raises the ValueError of `set_meta`; either ends the parse. */
module SplitParser {
  import opened Wrappers
  import opened Text
  import opened SplitAst

  datatype ErrorKind = IndexError | ValueError

  datatype Raised = Raised(kind: ErrorKind, message: string)

  /** What `parts[i]` raises when `i` is past the end of the list. */
  const OutOfRange: Raised := Raised(IndexError, "list index out of range")

  /** The creation date `_parse_meta` writes into every metadata record. */
  const MetaDate: string := "2025-02-08"

  /** Words as `str.split()` produces them: non-empty and free of whitespace. */
  predicate AreWords(words: seq<string>) {
    forall k :: 0 <= k < |words| ==> words[k] != [] && forall ch :: ch in words[k] ==> !IsSpace(ch)
  }

  /** `" ".join(parts[i:]) if len(parts) > i else None`. Joined words split back into
      exactly the words they were joined from. */
  function RestFrom(parts: seq<string>, i: nat): (r: Option<string>)
    ensures r.None? <==> |parts| <= i
    ensures r.Some? && AreWords(parts) ==> SplitWhitespace(r.value) == parts[i..]
  {
    if |parts| > i then
      assert AreWords(parts) ==> SplitWhitespace(Join(parts[i..], " ")) == parts[i..] by {
        if AreWords(parts) {
          SplitWhitespaceJoin(parts[i..]);
        }
      }
      Some(Join(parts[i..], " "))
    else None
  }

  /** `word.strip("()").split(",")`: the names of a parenthesised, comma-separated type
      list. Joining them with commas gives back the word without its outer parentheses. */
  function TypeList(word: string): (names: seq<string>)
    ensures |names| >= 1
    ensures forall k :: 0 <= k < |names| ==> ',' !in names[k]
    ensures Join(names, ",") == StripChars(word, {'(', ')'})
  {
    JoinSplit(StripChars(word, {'(', ')'}), ',');
    Split(StripChars(word, {'(', ')'}), ',')
  }

  /** `_parse_type(line)`: the second word names the type; any further words, joined by
      single spaces, describe it. */
  function ParseType(line: string): (r: Result<Term, Raised>)
    ensures r.Failure? <==> |SplitWhitespace(line)| < 2
    ensures r.Failure? ==> r.error == OutOfRange
    ensures r.Success? ==> r.value.name in SplitWhitespace(line)
    ensures r.Success? ==> (r.value.description.None? <==> |SplitWhitespace(line)| == 2)
    ensures r.Success? && r.value.description.Some? ==>
              SplitWhitespace(r.value.description.value) == SplitWhitespace(line)[2..]
  {
    var parts := SplitWhitespace(line);
    if |parts| < 2 then Failure(OutOfRange)
    else Success(Term(parts[1], RestFrom(parts, 2)))
  }

  /** `_parse_function(line)`: name, input list, output list, then an optional label word
      and an optional description made of the words after it. */
  function ParseFunction(line: string): (r: Result<Function, Raised>)
    ensures r.Failure? <==> |SplitWhitespace(line)| < 4
    ensures r.Failure? ==> r.error == OutOfRange
    ensures r.Success? ==> |r.value.inputTypes| >= 1 && |r.value.outputTypes| >= 1
    ensures r.Success? ==> forall k :: 0 <= k < |r.value.inputTypes| ==> ',' !in r.value.inputTypes[k]
    ensures r.Success? ==> forall k :: 0 <= k < |r.value.outputTypes| ==> ',' !in r.value.outputTypes[k]
    ensures r.Success? ==> (r.value.labelText.Some? <==> |SplitWhitespace(line)| > 4)
    ensures r.Success? ==> (r.value.description.Some? <==> |SplitWhitespace(line)| > 5)
  {
    var parts := SplitWhitespace(line);
    if |parts| < 4 then Failure(OutOfRange)
    else
      var labelText := if |parts| > 4 then Some(parts[4]) else None;
      Success(Function(parts[1], TypeList(parts[2]), TypeList(parts[3]), labelText, RestFrom(parts, 5)))
  }

  /** `_parse_meta(line)`: version, name and author are the second to fourth words; the
      description is the rest joined, or empty; the creation date is always `MetaDate`. */
  function ParseMeta(line: string): (r: Result<Meta, Raised>)
    ensures r.Failure? <==> |SplitWhitespace(line)| < 4
    ensures r.Failure? ==> r.error == OutOfRange
    ensures r.Success? ==> r.value.version.Some? && r.value.name.Some? && r.value.author.Some?
    ensures r.Success? ==> r.value.description.Some? && r.value.dateCreated == Some(MetaDate)
    ensures r.Success? ==> SplitWhitespace(r.value.description.value) == SplitWhitespace(line)[4..]
  {
    var parts := SplitWhitespace(line);
    if |parts| < 4 then Failure(OutOfRange)
    else
      var description := RestFrom(parts, 4).GetOr("");
      Success(Meta(Some(parts[1]), Some(parts[2]), Some(parts[3]), Some(description), Some(MetaDate)))
  }

  /** What `parse` has built so far. */
  type State = Contents

  /** A fresh `Ontology()`. */
  const Empty: State := Contents([], [], [], None)

  /** The number of entries a state holds. */
  function Size(s: State): nat {
    |s.types| + |s.functions| + |s.hierarchy|
  }

  /** How `parse` treats a trimmed line, in its order of tests: comments first, then the
      `type`, `function` and `meta` prefixes, then any other non-empty line. */
  datatype LineKind = Comment | TypeEntry | FunctionEntry | MetaEntry | RelationshipEntry | Blank

  function KindOf(line: string): LineKind {
    if StartsWith(line, "#") then Comment
    else if StartsWith(line, "type") then TypeEntry
    else if StartsWith(line, "function") then FunctionEntry
    else if StartsWith(line, "meta") then MetaEntry
    else if line != "" then RelationshipEntry
    else Blank
  }

  /** `ontology.add_type(self._parse_type(line))` */
  function AddTypeOf(s: State, line: string): (r: Result<State, Raised>)
    ensures r.Success? ==> r.value == s.(types := r.value.types) && |r.value.types| == |s.types| + 1
    ensures r.Success? ==> r.value.types[..|s.types|] == s.types
  {
    match ParseType(line)
    case Failure(e) => Failure(e)
    case Success(t) => Success(s.(types := s.types + [t]))
  }

  /** `ontology.add_function(self._parse_function(line))` */
  function AddFunctionOf(s: State, line: string): (r: Result<State, Raised>)
    ensures r.Success? ==> r.value == s.(functions := r.value.functions) && |r.value.functions| == |s.functions| + 1
    ensures r.Success? ==> r.value.functions[..|s.functions|] == s.functions
  {
    match ParseFunction(line)
    case Failure(e) => Failure(e)
    case Success(f) => Success(s.(functions := s.functions + [f]))
  }

  /** `ontology.set_meta(self._parse_meta(line))`: the line is read before `set_meta`
      checks for earlier metadata, so a short line raises IndexError either way. */
  function SetMetaOf(s: State, line: string): (r: Result<State, Raised>)
    ensures r.Success? ==> s.meta.None? && r.value.meta.Some? && r.value == s.(meta := r.value.meta)
    ensures r.Failure? && |SplitWhitespace(line)| >= 4 ==> s.meta.Some? && r.error == Raised(ValueError, MetaAlreadySet)
  {
    match ParseMeta(line)
    case Failure(e) => Failure(e)
    case Success(m) =>
      if s.meta.Some? then Failure(Raised(ValueError, MetaAlreadySet)) else Success(s.(meta := Some(m)))
  }

  /** One iteration of `parse`'s loop on the line `raw`. */
  function Step(s: State, raw: string): (r: Result<State, Raised>)
    ensures r.Success? ==> s.types <= r.value.types && s.functions <= r.value.functions
                           && s.hierarchy <= r.value.hierarchy
    ensures r.Success? ==> Size(r.value) <= Size(s) + 1
    ensures r.Success? && s.meta.Some? ==> r.value.meta == s.meta
  {
    StepLine(s, Strip(raw))
  }

  /** One iteration of `parse`'s loop, once the line is stripped. */
  function StepLine(s: State, line: string): (r: Result<State, Raised>)
    ensures r.Success? ==> s.types <= r.value.types && s.functions <= r.value.functions
                           && s.hierarchy <= r.value.hierarchy
    ensures r.Success? ==> Size(r.value) <= Size(s) + 1
    ensures r.Success? && s.meta.Some? ==> r.value.meta == s.meta
  {
    match KindOf(line)
    case Comment => Success(s)
    case TypeEntry => AddTypeOf(s, line)
    case FunctionEntry => AddFunctionOf(s, line)
    case MetaEntry => SetMetaOf(s, line)
    case RelationshipEntry => Success(s.(hierarchy := s.hierarchy + [Relationship(line)]))
    case Blank => Success(s)
  }

  /** `parse`'s loop over `lines`, from the state `s0`: the first exception ends it. */
  function Run(s0: State, lines: seq<string>): (r: Result<State, Raised>)
    ensures r.Success? ==> s0.types <= r.value.types && s0.functions <= r.value.functions
                           && s0.hierarchy <= r.value.hierarchy
    ensures r.Success? ==> Size(r.value) <= Size(s0) + |lines|
    ensures r.Success? && s0.meta.Some? ==> r.value.meta == s0.meta
    decreases |lines|
  {
    if |lines| == 0 then Success(s0)
    else
      match Run(s0, lines[..|lines| - 1])
      case Failure(e) => Failure(e)
      case Success(s) => Step(s, lines[|lines| - 1])
  }

  /** `Parser().parse(file_content)` */
  function ParseSpec(content: string): Result<State, Raised> {
    Run(Empty, SplitLines(content))
  }

  /** `Parser().parse(file_content)`: builds the ontology line by line and returns it, or
      the exception that stopped it. */
  method Parse(content: string) returns (r: Result<Ontology, Raised>)
    ensures ParseSpec(content).Success? ==>
              r.Success? && fresh(r.value) && r.value.Snapshot() == ParseSpec(content).value
    ensures ParseSpec(content).Failure? ==> r == Failure(ParseSpec(content).error)
  {
    var o := new Ontology();
    var lines := SplitLines(content);
    var i := 0;
    while i < |lines|
      invariant 0 <= i <= |lines|
      invariant fresh(o)
      invariant Run(Empty, lines[..i]) == Success(o.Snapshot())
    {
      RunNext(lines, i, o.Snapshot());
      var raised := ParseLine(o, lines[i]);
      if raised.Some? {
        RunStopsAt(lines, i);
        return Failure(raised.value);
      }
      i := i + 1;
    }
    RunAll(lines);
    return Success(o);
  }

  /** One pass of `parse`'s loop: adds what the line `raw` holds to `o`, or reports the
      exception it raises. */
  method ParseLine(o: Ontology, raw: string) returns (raised: Option<Raised>)
    modifies o
    ensures Step(old(o.Snapshot()), raw) == if raised.None? then Success(o.Snapshot()) else Failure(raised.value)
  {
    var line := Strip(raw);
    raised := ParseStripped(o, line);
  }

  /** `parse`'s dispatch on the stripped line, by its first characters. */
  method ParseStripped(o: Ontology, line: string) returns (raised: Option<Raised>)
    modifies o
    ensures StepLine(old(o.Snapshot()), line) == if raised.None? then Success(o.Snapshot()) else Failure(raised.value)
  {
    raised := None;
    if StartsWith(line, "#") {
      StepLineSkips(o.Snapshot(), line);
    } else if StartsWith(line, "type") {
      assert KindOf(line) == TypeEntry;
      raised := AddTypeLine(o, line);
    } else if StartsWith(line, "function") {
      assert KindOf(line) == FunctionEntry;
      raised := AddFunctionLine(o, line);
    } else if StartsWith(line, "meta") {
      assert KindOf(line) == MetaEntry;
      raised := SetMetaLine(o, line);
    } else if line != "" {
      StepLineRelationship(o.Snapshot(), line);
      o.AddRelationship(Relationship(line));
    } else {
      StepLineSkips(o.Snapshot(), line);
    }
  }

  /** A `type` line: its term is parsed, then added. */
  method AddTypeLine(o: Ontology, line: string) returns (raised: Option<Raised>)
    modifies o
    ensures AddTypeOf(old(o.Snapshot()), line) == if raised.None? then Success(o.Snapshot()) else Failure(raised.value)
  {
    var t := ParseType(line);
    if t.Failure? {
      return Some(t.error);
    }
    o.AddType(t.value);
    return None;
  }

  /** A `function` line: its function is parsed, then added. */
  method AddFunctionLine(o: Ontology, line: string) returns (raised: Option<Raised>)
    modifies o
    ensures AddFunctionOf(old(o.Snapshot()), line) == if raised.None? then Success(o.Snapshot()) else Failure(raised.value)
  {
    var f := ParseFunction(line);
    if f.Failure? {
      return Some(f.error);
    }
    o.AddFunction(f.value);
    return None;
  }

  /** A `meta` line: its metadata is parsed, then set unless already set. */
  method SetMetaLine(o: Ontology, line: string) returns (raised: Option<Raised>)
    modifies o
    ensures SetMetaOf(old(o.Snapshot()), line) == if raised.None? then Success(o.Snapshot()) else Failure(raised.value)
  {
    var m := ParseMeta(line);
    if m.Failure? {
      return Some(m.error);
    }
    var failed := o.SetMeta(m.value);
    if failed.Some? {
      return Some(Raised(ValueError, failed.value));
    }
    return None;
  }

  /** The loop over one more line is one more step. */
  lemma RunStep(s0: State, lines: seq<string>, i: nat)
    requires i < |lines|
    ensures Run(s0, lines[..i + 1])
            == match Run(s0, lines[..i])
               case Failure(e) => Failure(e)
               case Success(s) => Step(s, lines[i])
  {
    assert lines[..i + 1][..i] == lines[..i];
  }

  /** From the state the first `i` lines built, line `i` is one more step. */
  lemma RunNext(lines: seq<string>, i: nat, s: State)
    requires i < |lines| && Run(Empty, lines[..i]) == Success(s)
    ensures Run(Empty, lines[..i + 1]) == Step(s, lines[i])
  {
    RunStep(Empty, lines, i);
  }

  /** When line `i` raises, that exception is the outcome of the whole loop. */
  lemma RunStopsAt(lines: seq<string>, i: nat)
    requires i < |lines| && Run(Empty, lines[..i + 1]).Failure?
    ensures Run(Empty, lines) == Run(Empty, lines[..i + 1])
  {
    RunStops(Empty, lines[..i + 1], lines[i + 1..]);
    assert lines[..i + 1] + lines[i + 1..] == lines;
  }

  lemma RunAll(lines: seq<string>)
    ensures Run(Empty, lines[..|lines|]) == Run(Empty, lines)
  {
    assert lines[..|lines|] == lines;
  }

  /** Once a line has raised, later lines change nothing. */
  lemma {:induction false} RunStops(s0: State, lines: seq<string>, more: seq<string>)
    requires Run(s0, lines).Failure?
    ensures Run(s0, lines + more) == Run(s0, lines)
    decreases |more|
  {
    if |more| == 0 {
      assert lines + more == lines;
    } else {
      RunStops(s0, lines, more[..|more| - 1]);
      assert (lines + more)[..|lines + more| - 1] == lines + more[..|more| - 1];
    }
  }

  /** Reading `a + b` is reading `a`, then reading `b` from where `a` left off. */
  lemma {:induction false} RunConcat(s0: State, a: seq<string>, b: seq<string>)
    ensures Run(s0, a + b)
            == match Run(s0, a)
               case Failure(e) => Failure(e)
               case Success(s) => Run(s, b)
    decreases |b|
  {
    if |b| == 0 {
      assert a + b == a;
    } else {
      var init := b[..|b| - 1];
      RunConcat(s0, a, init);
      assert (a + b)[..|a + b| - 1] == a + init;
      assert (a + b)[|a + b| - 1] == b[|b| - 1];
    }
  }

  /** A line `parse` passes over: blank once trimmed, or a comment. */
  predicate Skipped(raw: string) {
    Strip(raw) == "" || StartsWith(Strip(raw), "#")
  }

  lemma StepSkips(s: State, raw: string)
    requires Skipped(raw)
    ensures Step(s, raw) == Success(s)
  {
    StepLineSkips(s, Strip(raw));
  }

  lemma StepLineSkips(s: State, line: string)
    requires line == "" || StartsWith(line, "#")
    ensures StepLine(s, line) == Success(s)
  {
    if line == "" {
      assert KindOf(line) == Blank;
    } else {
      assert KindOf(line) == Comment;
    }
  }

  lemma StepRelationship(s: State, raw: string)
    requires RelationshipLine(Strip(raw))
    ensures Step(s, raw) == Success(s.(hierarchy := s.hierarchy + [Relationship(Strip(raw))]))
  {
    StepLineRelationship(s, Strip(raw));
  }

  lemma StepLineRelationship(s: State, line: string)
    requires KindOf(line) == RelationshipEntry
    ensures StepLine(s, line) == Success(s.(hierarchy := s.hierarchy + [Relationship(line)]))
  {
  }

  /** Blank and comment lines leave the ontology as it was. */
  lemma {:induction false} RunSkips(s0: State, lines: seq<string>)
    requires forall k :: 0 <= k < |lines| ==> Skipped(lines[k])
    ensures Run(s0, lines) == Success(s0)
    decreases |lines|
  {
    if |lines| > 0 {
      RunSkips(s0, lines[..|lines| - 1]);
      StepSkips(s0, lines[|lines| - 1]);
    }
  }

  /** A trimmed line `parse` keeps whole as a relationship. */
  predicate RelationshipLine(line: string) {
    KindOf(line) == RelationshipEntry
  }

  /** A relationship per line, holding the trimmed line. */
  function Expressions(lines: seq<string>): (rs: seq<Relationship>)
    ensures |rs| == |lines|
    ensures forall k :: 0 <= k < |lines| ==> rs[k] == Relationship(Strip(lines[k]))
  {
    if |lines| == 0 then []
    else Expressions(lines[..|lines| - 1]) + [Relationship(Strip(lines[|lines| - 1]))]
  }

  /** Lines that are neither blank, comments, nor led by a keyword become relationships,
      one per line and in line order, and nothing else changes. */
  lemma {:induction false} RunRelationships(s0: State, lines: seq<string>)
    requires forall k :: 0 <= k < |lines| ==> RelationshipLine(Strip(lines[k]))
    ensures Run(s0, lines) == Success(s0.(hierarchy := s0.hierarchy + Expressions(lines)))
    decreases |lines|
  {
    if |lines| > 0 {
      var init := lines[..|lines| - 1];
      var last := lines[|lines| - 1];
      RunRelationships(s0, init);
      var t := s0.(hierarchy := s0.hierarchy + Expressions(init));
      assert Run(s0, lines) == Step(t, last);
      StepRelationship(t, last);
      assert Expressions(lines) == Expressions(init) + [Relationship(Strip(last))];
      AppendTwice(s0.hierarchy, Expressions(init), [Relationship(Strip(last))]);
      assert t.(hierarchy := t.hierarchy + [Relationship(Strip(last))]) == s0.(hierarchy := s0.hierarchy + Expressions(lines));
    } else {
      assert s0.hierarchy + [] == s0.hierarchy;
    }
  }

  /** The text of a written list of type names: `(a,b,c)`. */
  function ListWord(names: seq<string>): string {
    "(" + Join(names, ",") + ")"
  }

  /** Type names a list can carry: no comma and no parenthesis inside. */
  predicate ListableNames(names: seq<string>) {
    |names| >= 1 && forall k :: 0 <= k < |names| ==> ',' !in names[k] && '(' !in names[k] && ')' !in names[k]
  }

  /** Reading a written list gives back its names. */
  lemma TypeListOfWritten(names: seq<string>)
    requires ListableNames(names)
    ensures TypeList(ListWord(names)) == names
  {
    var j := Join(names, ",");
    JoinChars(names, ",", '(');
    JoinChars(names, ",", ')');
    if j != [] {
      assert j[0] in j && j[|j| - 1] in j;
    }
    StripParens(j);
    SplitJoin(names, ',');
  }

  /** `()` is read as a list holding one empty name, not as an empty list. */
  lemma EmptyListIsOneName()
    ensures TypeList("()") == [""]
  {
    StripParens("");
    assert "(" + "" + ")" == "()";
  }

  /** `Term(name, description)` for a description given as its words. */
  function TermOf(name: string, description: seq<string>): Term {
    Term(name, if description == [] then None else Some(Join(description, " ")))
  }

  /** A written type line is read back as the type it was written from, whatever word
      beginning with `type` leads it. */
  lemma ParseTypeOfWritten(keyword: string, name: string, description: seq<string>)
    requires AreWords([keyword, name] + description)
    ensures ParseType(Join([keyword, name] + description, " ")) == Success(TermOf(name, description))
  {
    var words := [keyword, name] + description;
    SplitWhitespaceJoin(words);
    assert words[2..] == description;
  }

  /** The words of a written function line. */
  function FunctionWords(keyword: string, name: string, inputs: seq<string>, outputs: seq<string>,
                         labelText: Option<string>, description: seq<string>): seq<string>
  {
    [keyword, name, ListWord(inputs), ListWord(outputs)] + LabelWords(labelText, description)
  }

  /** The optional label word and the description words after it. */
  function LabelWords(labelText: Option<string>, description: seq<string>): seq<string> {
    if labelText.Some? then [labelText.value] + description else description
  }

  /** A written function line is read back as the function it was written from; a
      description can only follow a label. */
  lemma ParseFunctionOfWritten(keyword: string, name: string, inputs: seq<string>, outputs: seq<string>,
                               labelText: Option<string>, description: seq<string>)
    requires ListableNames(inputs) && ListableNames(outputs)
    requires labelText.None? ==> description == []
    requires AreWords(FunctionWords(keyword, name, inputs, outputs, labelText, description))
    ensures ParseFunction(Join(FunctionWords(keyword, name, inputs, outputs, labelText, description), " "))
            == Success(Function(name, inputs, outputs, labelText,
                                if description == [] then None else Some(Join(description, " "))))
  {
    var words := FunctionWords(keyword, name, inputs, outputs, labelText, description);
    var line := Join(words, " ");
    SplitWhitespaceJoin(words);
    TypeListOfWritten(inputs);
    TypeListOfWritten(outputs);
    var written := if description == [] then None else Some(Join(description, " "));
    var tail := LabelWords(labelText, description);
    assert words[4..] == tail;
    if labelText.Some? {
      assert words[5..] == tail[1..] == description;
      assert RestFrom(words, 5) == written;
    } else {
      assert |words| == 4;
    }
    assert ParseFunction(line)
           == Success(Function(words[1], TypeList(words[2]), TypeList(words[3]), labelText, RestFrom(words, 5)));
  }

  /** A written metadata line is read back with its description (empty when none is
      written) and the fixed creation date. */
  lemma ParseMetaOfWritten(keyword: string, version: string, name: string, author: string, description: seq<string>)
    requires AreWords([keyword, version, name, author] + description)
    ensures ParseMeta(Join([keyword, version, name, author] + description, " "))
            == Success(Meta(Some(version), Some(name), Some(author), Some(Join(description, " ")), Some(MetaDate)))
  {
    var words := [keyword, version, name, author] + description;
    SplitWhitespaceJoin(words);
    assert words[4..] == description;
  }

  /** Words joined by single spaces are their own trimmed line and start with their first
      word. */
  lemma WrittenLine(words: seq<string>)
    requires |words| >= 1 && AreWords(words)
    ensures Strip(Join(words, " ")) == Join(words, " ")
    ensures StartsWith(Join(words, " "), words[0])
  {
    JoinedWordsStrip(words);
    JoinStartsWith(words, " ");
  }

  /** A prefix of a prefix is a prefix. */
  lemma PrefixOfPrefix(line: string, word: string, keyword: string)
    requires StartsWith(line, word) && StartsWith(word, keyword)
    ensures StartsWith(line, keyword)
  {
    assert line[..|keyword|] == line[..|word|][..|keyword|];
  }

  /** The dispatch of a line led by a keyword. */
  lemma KindOfLed(line: string)
    ensures StartsWith(line, "type") ==> KindOf(line) == TypeEntry
    ensures StartsWith(line, "function") ==> KindOf(line) == FunctionEntry
    ensures StartsWith(line, "meta") ==> KindOf(line) == MetaEntry
  {
    if StartsWith(line, "type") {
      assert line[0] == 't';
    } else if StartsWith(line, "function") {
      assert line[0] == 'f' && line[..4] != "type";
    } else if StartsWith(line, "meta") {
      assert line[0] == 'm' && line[..4] != "type";
      assert |line| < 8 || line[..8] != "function";
    }
  }

  /** A written type line adds its type at the end of the types and changes nothing else. */
  lemma StepTypeLine(s: State, keyword: string, name: string, description: seq<string>)
    requires StartsWith(keyword, "type") && AreWords([keyword, name] + description)
    ensures Step(s, Join([keyword, name] + description, " ")) == Success(s.(types := s.types + [TermOf(name, description)]))
  {
    var words := [keyword, name] + description;
    var line := Join(words, " ");
    WrittenLine(words);
    PrefixOfPrefix(line, keyword, "type");
    KindOfLed(line);
    assert Step(s, line) == AddTypeOf(s, line);
    ParseTypeOfWritten(keyword, name, description);
  }

  /** A written function line adds its function at the end of the functions and changes
      nothing else. */
  lemma StepFunctionLine(s: State, keyword: string, name: string, inputs: seq<string>, outputs: seq<string>,
                         labelText: Option<string>, description: seq<string>)
    requires StartsWith(keyword, "function")
    requires ListableNames(inputs) && ListableNames(outputs)
    requires labelText.None? ==> description == []
    requires AreWords(FunctionWords(keyword, name, inputs, outputs, labelText, description))
    ensures Step(s, Join(FunctionWords(keyword, name, inputs, outputs, labelText, description), " "))
            == Success(s.(functions := s.functions + [Function(name, inputs, outputs, labelText,
                                                               if description == [] then None else Some(Join(description, " ")))]))
  {
    var words := FunctionWords(keyword, name, inputs, outputs, labelText, description);
    var line := Join(words, " ");
    WrittenLine(words);
    PrefixOfPrefix(line, keyword, "function");
    KindOfLed(line);
    assert Step(s, line) == AddFunctionOf(s, line);
    ParseFunctionOfWritten(keyword, name, inputs, outputs, labelText, description);
  }

  /** A written metadata line sets the metadata when none is set, and raises ValueError
      otherwise. */
  lemma StepMetaLine(s: State, keyword: string, version: string, name: string, author: string, description: seq<string>)
    requires StartsWith(keyword, "meta") && AreWords([keyword, version, name, author] + description)
    ensures var m := Meta(Some(version), Some(name), Some(author), Some(Join(description, " ")), Some(MetaDate));
            Step(s, Join([keyword, version, name, author] + description, " "))
            == if s.meta.Some? then Failure(Raised(ValueError, MetaAlreadySet)) else Success(s.(meta := Some(m)))
  {
    var words := [keyword, version, name, author] + description;
    var line := Join(words, " ");
    WrittenLine(words);
    PrefixOfPrefix(line, keyword, "meta");
    KindOfLed(line);
    assert Step(s, line) == SetMetaOf(s, line);
    ParseMetaOfWritten(keyword, version, name, author, description);
  }

  /** A trimmed line led by `meta` with at least four words. */
  predicate MetaLine(raw: string) {
    StartsWith(Strip(raw), "meta") && |SplitWhitespace(Strip(raw))| >= 4
  }

  /** A metadata line on a state that already holds metadata raises ValueError. */
  lemma StepSecondMeta(s: State, raw: string)
    requires s.meta.Some? && MetaLine(raw)
    ensures Step(s, raw) == Failure(Raised(ValueError, MetaAlreadySet))
  {
    KindOfLed(Strip(raw));
    assert Step(s, raw) == SetMetaOf(s, Strip(raw));
  }

  /** Once metadata is set, any later metadata line ends the parse with ValueError. */
  lemma SecondMetaRaises(s0: State, first: seq<string>, between: seq<string>, raw: string)
    requires Run(s0, first).Success? && Run(s0, first).value.meta.Some?
    requires Run(s0, first + between).Success?
    requires MetaLine(raw)
    ensures Run(s0, first + between + [raw]) == Failure(Raised(ValueError, MetaAlreadySet))
  {
    RunConcat(s0, first, between);
    var s := Run(s0, first + between).value;
    assert s.meta.Some?;
    var all := first + between + [raw];
    assert all[..|all| - 1] == first + between;
    StepSecondMeta(s, raw);
  }

  /** `types:`, the block header of the other DSL format, is one word. */
  lemma TypesHeaderWord()
    ensures Strip("types:") == "types:" && SplitWhitespace("types:") == ["types:"]
  {
    WrittenLine(["types:"]);
    SplitWhitespaceJoin(["types:"]);
  }

  /** `functions:` is one word. */
  lemma FunctionsHeaderWord()
    ensures Strip("functions:") == "functions:" && SplitWhitespace("functions:") == ["functions:"]
  {
    WrittenLine(["functions:"]);
    SplitWhitespaceJoin(["functions:"]);
  }

  /** `types:` is read as a type line without a name and raises IndexError. */
  lemma TypesHeaderRaises(s: State)
    ensures Step(s, "types:") == Failure(OutOfRange)
  {
    TypesHeaderKind();
    StepTypeRaises(s, "types:");
  }

  /** A type line whose term cannot be read raises what `_parse_type` raises. */
  lemma StepTypeRaises(s: State, line: string)
    requires KindOf(line) == TypeEntry && ParseType(line).Failure?
    ensures StepLine(s, line) == Failure(ParseType(line).error)
  {
  }

  lemma TypesHeaderKind()
    ensures Strip("types:") == "types:" && KindOf("types:") == TypeEntry && ParseType("types:") == Failure(OutOfRange)
  {
    TypesHeaderWord();
    TypesHeaderLed();
  }

  lemma TypesHeaderLed()
    ensures KindOf("types:") == TypeEntry
  {
    KindOfLed("types:");
    assert "types:"[..4] == "type";
  }

  /** `functions:` is read as a function line without a name and raises IndexError. */
  lemma FunctionsHeaderRaises(s: State)
    ensures Step(s, "functions:") == Failure(OutOfRange)
  {
    FunctionsHeaderKind();
    StepFunctionRaises(s, "functions:");
  }

  /** A function line whose function cannot be read raises what `_parse_function` raises. */
  lemma StepFunctionRaises(s: State, line: string)
    requires KindOf(line) == FunctionEntry && ParseFunction(line).Failure?
    ensures StepLine(s, line) == Failure(ParseFunction(line).error)
  {
  }

  lemma FunctionsHeaderKind()
    ensures && Strip("functions:") == "functions:" && KindOf("functions:") == FunctionEntry
            && ParseFunction("functions:") == Failure(OutOfRange)
  {
    FunctionsHeaderWord();
    FunctionsHeaderLed();
  }

  lemma FunctionsHeaderLed()
    ensures KindOf("functions:") == FunctionEntry
  {
    KindOfLed("functions:");
    assert "functions:"[..8] == "function";
  }

  /** Appending twice appends the two parts together. */
  lemma AppendTwice<T>(a: seq<T>, b: seq<T>, c: seq<T>)
    ensures a + b + c == a + (b + c)
  {
  }
}

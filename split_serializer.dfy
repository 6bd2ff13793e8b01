/** The JSON serializer of the split-based prototype (parser/serializer.py), up to the value
    tree that `json.dumps` receives. Every entry becomes a dictionary of strings, `null`s
    and string lists, so the tree is always encodable, and it can be read back: each
    `...Of` function below undoes the tree built by its partner. */
module SplitSerializer {
  import opened Wrappers
  import opened SplitAst
  import J = JsonSerializer

  type Tree = J.Tree

  function StrTree(s: string): Tree {
    J.Str(s)
  }

  function StrOf(t: Tree): Option<string> {
    if t.Str? then Some(t.s) else None
  }

  /** A list, entry by entry through `enc`, in list order. */
  function Trees<T>(xs: seq<T>, enc: T -> Tree): (r: seq<Tree>)
    ensures |r| == |xs|
    ensures forall k :: 0 <= k < |xs| ==> r[k] == enc(xs[k])
  {
    seq(|xs|, k requires 0 <= k < |xs| => enc(xs[k]))
  }

  /** Reads a list back, entry by entry through `dec`; `None` if any entry is unreadable. */
  function Decode<T>(items: seq<Tree>, dec: Tree -> Option<T>): (r: Option<seq<T>>)
    ensures r.Some? ==> |r.value| == |items|
    decreases |items|
  {
    if |items| == 0 then Some([])
    else
      match (dec(items[0]), Decode(items[1..], dec))
      case (Some(x), Some(xs)) => Some([x] + xs)
      case _ => None
  }

  /** A list written through `enc` is read back through a `dec` that undoes `enc`. */
  lemma {:induction false} DecodeTrees<T>(xs: seq<T>, enc: T -> Tree, dec: Tree -> Option<T>)
    requires forall x :: dec(enc(x)) == Some(x)
    ensures Decode(Trees(xs, enc), dec) == Some(xs)
    decreases |xs|
  {
    if |xs| > 0 {
      DecodeTrees(xs[1..], enc, dec);
      assert Trees(xs, enc)[1..] == Trees(xs[1..], enc);
      assert [xs[0]] + xs[1..] == xs;
    }
  }

  /** Every entry of a list written through an encodable `enc` is encodable. */
  lemma TreesEncodable<T>(xs: seq<T>, enc: T -> Tree)
    requires forall x :: J.Encodable(enc(x))
    ensures J.Encodable(J.Array(Trees(xs, enc)))
  {
  }

  function StringsTree(ss: seq<string>): Tree {
    J.Array(Trees(ss, StrTree))
  }

  function StringsOf(t: Tree): Option<seq<string>> {
    if t.Array? then Decode(t.items, StrOf) else None
  }

  lemma StringsRoundTrip(ss: seq<string>)
    ensures StringsOf(StringsTree(ss)) == Some(ss)
  {
    DecodeTrees(ss, StrTree, StrOf);
  }

  /** `_serialize_term`: `{"name", "description"}`, a missing description as `null`. */
  function TermTree(t: Term): (r: Tree)
    ensures r.Object? && r.entries.Keys == {"name", "description"}
    ensures J.Encodable(r)
  {
    J.Object(map["name" := J.Str(t.name), "description" := J.OptionTree(t.description)])
  }

  function TermOf(t: Tree): Option<Term> {
    if t.Object? && t.entries.Keys == {"name", "description"} then
      var name := StrOf(t.entries["name"]);
      var description := J.OptionOf(t.entries["description"]);
      if name.Some? && description.Some? then Some(Term(name.value, description.value)) else None
    else None
  }

  lemma TermRoundTrip(t: Term)
    ensures TermOf(TermTree(t)) == Some(t)
  {
    var e := TermTree(t).entries;
    assert J.OptionOf(e["description"]) == Some(t.description);
  }

  /** `_serialize_function`: name, both type lists, label and description. */
  function FunctionTree(f: Function): (r: Tree)
    ensures r.Object? && r.entries.Keys == {"name", "input_types", "output_types", "label", "description"}
    ensures J.Encodable(r)
  {
    J.Object(map["name" := J.Str(f.name), "input_types" := StringsTree(f.inputTypes),
                 "output_types" := StringsTree(f.outputTypes), "label" := J.OptionTree(f.labelText),
                 "description" := J.OptionTree(f.description)])
  }

  function FunctionOf(t: Tree): Option<Function> {
    if t.Object? && t.entries.Keys == {"name", "input_types", "output_types", "label", "description"} then
      var e := t.entries;
      var name := StrOf(e["name"]);
      var inputs := StringsOf(e["input_types"]);
      var outputs := StringsOf(e["output_types"]);
      var labelText := J.OptionOf(e["label"]);
      var description := J.OptionOf(e["description"]);
      if name.Some? && inputs.Some? && outputs.Some? && labelText.Some? && description.Some? then
        Some(Function(name.value, inputs.value, outputs.value, labelText.value, description.value))
      else None
    else None
  }

  lemma FunctionRoundTrip(f: Function)
    ensures FunctionOf(FunctionTree(f)) == Some(f)
  {
    var e := FunctionTree(f).entries;
    StringsRoundTrip(f.inputTypes);
    StringsRoundTrip(f.outputTypes);
    assert J.OptionOf(e["label"]) == Some(f.labelText);
    assert J.OptionOf(e["description"]) == Some(f.description);
  }

  /** `_serialize_meta`: the five fields under their Python names. */
  function MetaTree(m: Meta): (r: Tree)
    ensures r.Object? && r.entries.Keys == {"version", "name", "author", "description", "date_created"}
    ensures J.Encodable(r)
  {
    J.Object(map["version" := J.OptionTree(m.version), "name" := J.OptionTree(m.name),
                 "author" := J.OptionTree(m.author), "description" := J.OptionTree(m.description),
                 "date_created" := J.OptionTree(m.dateCreated)])
  }

  function MetaOf(t: Tree): Option<Meta> {
    if t.Object? && t.entries.Keys == {"version", "name", "author", "description", "date_created"} then
      var e := t.entries;
      var version := J.OptionOf(e["version"]);
      var name := J.OptionOf(e["name"]);
      var author := J.OptionOf(e["author"]);
      var description := J.OptionOf(e["description"]);
      var date := J.OptionOf(e["date_created"]);
      if version.Some? && name.Some? && author.Some? && description.Some? && date.Some? then
        Some(Meta(version.value, name.value, author.value, description.value, date.value))
      else None
    else None
  }

  lemma MetaRoundTrip(m: Meta)
    ensures MetaOf(MetaTree(m)) == Some(m)
  {
    var e := MetaTree(m).entries;
    assert J.OptionOf(e["version"]) == Some(m.version);
    assert J.OptionOf(e["name"]) == Some(m.name);
    assert J.OptionOf(e["author"]) == Some(m.author);
    assert J.OptionOf(e["description"]) == Some(m.description);
    assert J.OptionOf(e["date_created"]) == Some(m.dateCreated);
  }

  /** A hierarchy entry is the expression string alone. */
  function ExpressionTree(r: Relationship): Tree {
    J.Str(r.expression)
  }

  function ExpressionOf(t: Tree): Option<Relationship> {
    if t.Str? then Some(Relationship(t.s)) else None
  }

  /** `meta` is `null` exactly when no metadata is set: a `Meta` object is always truthy. */
  function MetaOrNull(meta: Option<Meta>): (r: Tree)
    ensures r == J.Null <==> meta.None?
  {
    match meta
    case None => J.Null
    case Some(m) => MetaTree(m)
  }

  /** The dictionary `serialize` hands to `json.dumps`. */
  function Document(c: Contents): (r: Tree)
    ensures r.Object? && r.entries.Keys == {"terms", "functions", "hierarchy", "meta"}
  {
    J.Object(map["terms" := J.Array(Trees(c.types, TermTree)),
                 "functions" := J.Array(Trees(c.functions, FunctionTree)),
                 "hierarchy" := J.Array(Trees(c.hierarchy, ExpressionTree)),
                 "meta" := MetaOrNull(c.meta)])
  }

  /** `JSONSerializer().serialize(ontology)`, before `json.dumps`. */
  function Serialize(o: Ontology): Tree
    reads o
  {
    Document(o.Snapshot())
  }

  /** Reads an ontology's contents back from a document tree. */
  function ContentsOf(t: Tree): Option<Contents> {
    if t.Object? && t.entries.Keys == {"terms", "functions", "hierarchy", "meta"}
       && t.entries["terms"].Array? && t.entries["functions"].Array? && t.entries["hierarchy"].Array?
    then
      var e := t.entries;
      var types := Decode(e["terms"].items, TermOf);
      var functions := Decode(e["functions"].items, FunctionOf);
      var hierarchy := Decode(e["hierarchy"].items, ExpressionOf);
      var meta := if e["meta"] == J.Null then Some(None)
                  else if MetaOf(e["meta"]).Some? then Some(Some(MetaOf(e["meta"]).value)) else None;
      if types.Some? && functions.Some? && hierarchy.Some? && meta.Some? then
        Some(Contents(types.value, functions.value, hierarchy.value, meta.value))
      else None
    else None
  }

  /** The document loses nothing: the terms, functions and expressions come back in order,
      and the metadata, or its absence, comes back as it was. */
  lemma DocumentRoundTrip(c: Contents)
    ensures ContentsOf(Document(c)) == Some(c)
  {
    TermsRoundTrip(c.types);
    FunctionsRoundTrip(c.functions);
    DecodeTrees(c.hierarchy, ExpressionTree, ExpressionOf);
    if c.meta.Some? {
      MetaRoundTrip(c.meta.value);
    }
  }

  lemma TermsRoundTrip(ts: seq<Term>)
    ensures Decode(Trees(ts, TermTree), TermOf) == Some(ts)
  {
    forall t: Term
      ensures TermOf(TermTree(t)) == Some(t)
    {
      TermRoundTrip(t);
    }
    DecodeTrees(ts, TermTree, TermOf);
  }

  lemma FunctionsRoundTrip(fs: seq<Function>)
    ensures Decode(Trees(fs, FunctionTree), FunctionOf) == Some(fs)
  {
    forall f: Function
      ensures FunctionOf(FunctionTree(f)) == Some(f)
    {
      FunctionRoundTrip(f);
    }
    DecodeTrees(fs, FunctionTree, FunctionOf);
  }

  /** `json.dumps` accepts every document: it holds only strings, `null`s, lists and
      dictionaries. */
  lemma DocumentEncodable(c: Contents)
    ensures J.Encodable(Document(c))
  {
    TreesEncodable(c.types, TermTree);
    TreesEncodable(c.functions, FunctionTree);
    TreesEncodable(c.hierarchy, ExpressionTree);
  }
}

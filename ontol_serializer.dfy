/** The JSON serializer (src/ontol/serializer.py) up to the value tree that
    `json.dumps` receives.

    - Terms and the metadata go through `asdict`, so they become plain dictionaries.
    - The `attributes` of functions and relationships are put in the tree as they are:
      a raw dictionary from the parser, or an attribute record that `json.dumps`
      cannot encode.

    The function entry, as written, subscripts a `FunctionArgument` record and raises.
    The model keeps that behaviour (`SerializeFunctionAsWritten`) and builds documents
    with the evidently intended entry (`SerializeFunction`). */
module JsonSerializer {
  import opened Wrappers
  import opened OntolAst

  /** A Python value as it reaches `json.dumps`. Besides JSON's own shapes it may be an
      enum member or a dataclass instance, which `json.dumps` rejects. */
  datatype Tree =
    | Null
    | Str(s: string)
    | Array(items: seq<Tree>)
    | Object(entries: map<string, Tree>)
    | EnumMember(value: string)
    | Instance(className: string, fields: map<string, Tree>)

  /** `json.dumps` encodes the value: no enum member and no dataclass instance inside. */
  predicate Encodable(t: Tree) {
    match t
    case Null => true
    case Str(_) => true
    case Array(items) => forall k :: 0 <= k < |items| ==> Encodable(items[k])
    case Object(entries) => forall key :: key in entries ==> Encodable(entries[key])
    case EnumMember(_) => false
    case Instance(_, _) => false
  }

  function OptionTree(o: Option<string>): (t: Tree)
    ensures t == Null <==> o.None?
    ensures o.Some? ==> t == Str(o.value)
  {
    match o
    case None => Null
    case Some(s) => Str(s)
  }

  // ---------------------------------------------------------------------------------
  // Terms and metadata: `asdict`
  // ---------------------------------------------------------------------------------

  /** The key -> value view of a term's attributes, the same for a record and for the
      raw dictionary the parser stores. */
  function TermAttributesView(a: Attributes<TermAttributes>): map<string, Option<string>> {
    match a
    case Record(r) => map["color" := r.color, "note" := r.note]
    case Dict(entries) => map key | key in entries :: Some(entries[key])
  }

  function ViewTree(v: map<string, Option<string>>): (t: Tree)
    ensures t.Object? && t.entries.Keys == v.Keys
    ensures forall key :: key in v ==> t.entries[key] == OptionTree(v[key])
  {
    Object(map key | key in v :: OptionTree(v[key]))
  }

  /** `_serialize_term`: `asdict(term)`, with the attributes converted as well. */
  function SerializeTerm(t: Term): (r: Tree)
    ensures r.Object? && r.entries.Keys == {"name", "label", "description", "attributes"}
    ensures Encodable(r)
  {
    Object(map["name" := Str(t.name), "label" := Str(t.labelText), "description" := Str(t.description),
             "attributes" := ViewTree(TermAttributesView(t.attributes))])
  }

  lemma ViewTreeInjective(v: map<string, Option<string>>, w: map<string, Option<string>>)
    ensures ViewTree(v) == ViewTree(w) <==> v == w
  {
    if ViewTree(v) == ViewTree(w) {
      forall key | key in v
        ensures key in w && v[key] == w[key]
      {
        assert ViewTree(v).entries[key] == ViewTree(w).entries[key];
      }
    }
  }

  /** Two terms serialize alike exactly when they agree on name, label, description and
      the key -> value view of their attributes: `asdict` loses only whether the
      attributes were a record or a dictionary. */
  lemma SerializeTermInjective(t: Term, u: Term)
    ensures SerializeTerm(t) == SerializeTerm(u)
        <==> (t.name == u.name && t.labelText == u.labelText && t.description == u.description
              && TermAttributesView(t.attributes) == TermAttributesView(u.attributes))
  {
    if SerializeTerm(t) == SerializeTerm(u) {
      assert SerializeTerm(t).entries["name"] == SerializeTerm(u).entries["name"];
      assert SerializeTerm(t).entries["label"] == SerializeTerm(u).entries["label"];
      assert SerializeTerm(t).entries["description"] == SerializeTerm(u).entries["description"];
      assert SerializeTerm(t).entries["attributes"] == SerializeTerm(u).entries["attributes"];
      ViewTreeInjective(TermAttributesView(t.attributes), TermAttributesView(u.attributes));
    }
  }

  /** `_serialize_meta`: `asdict(meta)`, unset fields as `null`. */
  function SerializeMeta(m: Meta): (r: Tree)
    ensures r.Object? && r.entries.Keys == {"version", "title", "author", "description", "type", "date"}
    ensures Encodable(r)
  {
    Object(map["version" := OptionTree(m.version), "title" := OptionTree(m.title),
             "author" := OptionTree(m.author), "description" := OptionTree(m.description),
             "type" := OptionTree(m.kind), "date" := OptionTree(m.date)])
  }

  function OptionOf(t: Tree): Option<Option<string>> {
    match t
    case Null => Some(None)
    case Str(s) => Some(Some(s))
    case _ => None
  }

  /** Reads metadata back from its tree (`json.loads` followed by `Meta(**data)`). */
  function MetaOf(t: Tree): Option<Meta> {
    if t.Object? && t.entries.Keys == {"version", "title", "author", "description", "type", "date"} then
      var e := t.entries;
      var version := OptionOf(e["version"]);
      var title := OptionOf(e["title"]);
      var author := OptionOf(e["author"]);
      var description := OptionOf(e["description"]);
      var kind := OptionOf(e["type"]);
      var date := OptionOf(e["date"]);
      if version.Some? && title.Some? && author.Some? && description.Some? && kind.Some? && date.Some? then
        Some(Meta(version.value, title.value, author.value, description.value, kind.value, date.value))
      else None
    else None
  }

  /** Metadata survives serialization field for field, unset fields included. */
  lemma MetaRoundTrip(m: Meta)
    ensures MetaOf(SerializeMeta(m)) == Some(m)
  {
    var e := SerializeMeta(m).entries;
    assert OptionOf(e["version"]) == Some(m.version);
    assert OptionOf(e["title"]) == Some(m.title);
    assert OptionOf(e["author"]) == Some(m.author);
    assert OptionOf(e["description"]) == Some(m.description);
    assert OptionOf(e["type"]) == Some(m.kind);
    assert OptionOf(e["date"]) == Some(m.date);
  }

  // ---------------------------------------------------------------------------------
  // Raw attribute values
  // ---------------------------------------------------------------------------------

  function TagTree(t: Option<RelationshipType>): Tree {
    match t
    case None => Null
    case Some(v) => EnumMember(v.Value())
  }

  function DirectionTree(d: Option<RelationshipDirection>): Tree {
    match d
    case None => Null
    case Some(v) => EnumMember(v.Value())
  }

  function RawDict(entries: map<string, string>): (t: Tree)
    ensures Encodable(t)
  {
    Object(map key | key in entries :: Str(entries[key]))
  }

  /** A function's `attributes` put into the tree unconverted. */
  function RawFunctionAttributes(a: Attributes<FunctionAttributes>): (t: Tree)
    ensures Encodable(t) <==> a.Dict?
  {
    match a
    case Dict(entries) => RawDict(entries)
    case Record(r) =>
      Instance("FunctionAttributes",
               map["color" := OptionTree(r.color), "colorArrow" := OptionTree(r.colorArrow),
                   "type" := TagTree(r.kind), "inputTitle" := OptionTree(r.inputTitle),
                   "outputTitle" := OptionTree(r.outputTitle)])
  }

  /** A relationship's `attributes` put into the tree unconverted. */
  function RawRelationshipAttributes(a: Attributes<RelationshipAttributes>): (t: Tree)
    ensures Encodable(t) <==> a.Dict?
  {
    match a
    case Dict(entries) => RawDict(entries)
    case Record(r) =>
      Instance("RelationshipAttributes",
               map["color" := OptionTree(r.color), "direction" := DirectionTree(r.direction),
                   "title" := OptionTree(r.title), "rightChar" := OptionTree(r.rightChar),
                   "leftChar" := OptionTree(r.leftChar)])
  }

  // ---------------------------------------------------------------------------------
  // Functions and relationships
  // ---------------------------------------------------------------------------------

  /** `_serialize_function` as written: `t['name']` on a `FunctionArgument` record (and
      `output_type['name']` when there are no inputs) raises `TypeError`. */
  function SerializeFunctionAsWritten(f: Function): (r: Result<Tree, string>)
    ensures r.Failure?
  {
    Failure("'FunctionArgument' object is not subscriptable")
  }

  function ArgumentTree(a: FunctionArgument): Tree {
    Object(map["name" := Str(a.term.name), "label" := Str(a.labelText)])
  }

  function ArgumentTrees(args: seq<FunctionArgument>): (r: seq<Tree>)
    ensures |r| == |args|
    ensures forall k :: 0 <= k < |args| ==> r[k] == ArgumentTree(args[k])
  {
    seq(|args|, k requires 0 <= k < |args| => ArgumentTree(args[k]))
  }

  /** `_serialize_function` reading the argument's term name and label. */
  function SerializeFunction(f: Function): (r: Tree)
    ensures r.Object? && r.entries.Keys == {"name", "label", "input_types", "output_type", "attributes"}
  {
    Object(map["name" := Str(f.name), "label" := Str(f.labelText),
             "input_types" := Array(ArgumentTrees(f.inputTypes)),
             "output_type" := ArgumentTree(f.outputType),
             "attributes" := RawFunctionAttributes(f.attributes)])
  }

  /** The (term name, label) pairs an `input_types` list holds, when it is one. */
  function ArgumentsOf(t: Tree): Option<seq<(string, string)>>
    decreases t
  {
    if !t.Array? then None
    else ArgumentsOfItems(t.items)
  }

  function ArgumentsOfItems(items: seq<Tree>): Option<seq<(string, string)>>
    decreases |items|
  {
    if |items| == 0 then Some([])
    else
      var a := ArgumentOf(items[0]);
      var rest := ArgumentsOfItems(items[1..]);
      if a.Some? && rest.Some? then Some([a.value] + rest.value) else None
  }

  function ArgumentOf(t: Tree): Option<(string, string)> {
    if t.Object? && t.entries.Keys == {"name", "label"} && t.entries["name"].Str? && t.entries["label"].Str? then
      Some((t.entries["name"].s, t.entries["label"].s))
    else None
  }

  lemma {:induction false} ArgumentsRoundTrip(args: seq<FunctionArgument>)
    ensures ArgumentsOfItems(ArgumentTrees(args)).Some?
    ensures ArgumentsOfItems(ArgumentTrees(args)).value
         == seq(|args|, k requires 0 <= k < |args| => (args[k].term.name, args[k].labelText))
    decreases |args|
  {
    if |args| > 0 {
      var trees := ArgumentTrees(args);
      assert trees[1..] == ArgumentTrees(args[1..]);
      ArgumentsRoundTrip(args[1..]);
      assert ArgumentOf(trees[0]) == Some((args[0].term.name, args[0].labelText));
    }
  }

  /** A function entry keeps the name and label, one `input_types` entry per argument
      in order with its term name and label, and the output's term name and label. */
  lemma FunctionEntry(f: Function)
    ensures var e := SerializeFunction(f).entries;
      && e["name"] == Str(f.name) && e["label"] == Str(f.labelText)
      && ArgumentsOf(e["input_types"]).Some?
      && ArgumentsOf(e["input_types"]).value
         == seq(|f.inputTypes|, k requires 0 <= k < |f.inputTypes| => (f.inputTypes[k].term.name, f.inputTypes[k].labelText))
      && ArgumentOf(e["output_type"]) == Some((f.outputType.term.name, f.outputType.labelText))
  {
    ArgumentsRoundTrip(f.inputTypes);
  }

  function TermTrees(ts: seq<Term>): (r: seq<Tree>)
    ensures |r| == |ts|
    ensures forall k :: 0 <= k < |ts| ==> r[k] == SerializeTerm(ts[k])
  {
    seq(|ts|, k requires 0 <= k < |ts| => SerializeTerm(ts[k]))
  }

  /** `_serialize_relationship`: the parent and children through `asdict`, the tag's
      text, the attributes unconverted. */
  function SerializeRelationship(r: Relationship): (t: Tree)
    ensures t.Object? && t.entries.Keys == {"parent", "relationship", "children", "attributes"}
    ensures Encodable(t) <==> r.attributes.Dict?
  {
    var t := Object(map["parent" := SerializeTerm(r.parent), "relationship" := Str(r.relationship.Value()),
             "children" := Array(TermTrees(r.children)),
             "attributes" := RawRelationshipAttributes(r.attributes)]);
    assert t.entries["attributes"] == RawRelationshipAttributes(r.attributes);
    t
  }

  /** The tag text reads back as the relationship's type, and the children keep their
      number and order. */
  lemma RelationshipEntry(r: Relationship)
    ensures var e := SerializeRelationship(r).entries;
      && e["relationship"].Str? && TypeFromStr(e["relationship"].s) == Some(r.relationship)
      && e["children"].Array? && |e["children"].items| == |r.children|
      && (forall k :: 0 <= k < |r.children| ==> e["children"].items[k] == SerializeTerm(r.children[k]))
  {
    TypeFromStrInverse(r.relationship, "");
  }

  // ---------------------------------------------------------------------------------
  // The document
  // ---------------------------------------------------------------------------------

  function FunctionTrees(fs: seq<Function>): (r: seq<Tree>)
    ensures |r| == |fs|
    ensures forall k :: 0 <= k < |fs| ==> r[k] == SerializeFunction(fs[k])
  {
    seq(|fs|, k requires 0 <= k < |fs| => SerializeFunction(fs[k]))
  }

  function RelationshipTrees(rs: seq<Relationship>): (r: seq<Tree>)
    ensures |r| == |rs|
    ensures forall k :: 0 <= k < |rs| ==> r[k] == SerializeRelationship(rs[k])
  {
    seq(|rs|, k requires 0 <= k < |rs| => SerializeRelationship(rs[k]))
  }

  /** The tree `serialize` hands to `json.dumps`. A `Meta` record is always truthy, so
      `meta` is never `null`. */
  function SerializeDocument(meta: Meta, types: seq<Term>, functions: seq<Function>,
                             hierarchy: seq<Relationship>): (r: Tree)
    ensures r.Object? && r.entries.Keys == {"terms", "functions", "hierarchy", "meta"}
  {
    Object(map["terms" := Array(TermTrees(types)), "functions" := Array(FunctionTrees(functions)),
             "hierarchy" := Array(RelationshipTrees(hierarchy)), "meta" := SerializeMeta(meta)])
  }

  /** `serialize` as written: any function entry raises. */
  function SerializeDocumentAsWritten(meta: Meta, types: seq<Term>, functions: seq<Function>,
                                      hierarchy: seq<Relationship>): (r: Result<Tree, string>)
    ensures r.Success? <==> |functions| == 0
    ensures r.Success? ==> r.value == SerializeDocument(meta, types, functions, hierarchy)
  {
    if |functions| > 0 then
      var failed := SerializeFunctionAsWritten(functions[0]);
      Failure(failed.error)
    else Success(SerializeDocument(meta, types, functions, hierarchy))
  }

  /** `JSONSerializer.serialize` on an ontology's current state: one entry per term,
      function and relationship, in the ontology's order, and metadata that reads back. */
  function Serialize(o: Ontology): (r: Tree)
    reads o
    ensures r.Object? && r.entries.Keys == {"terms", "functions", "hierarchy", "meta"}
    ensures && r.entries["terms"].Array? && |r.entries["terms"].items| == |o.types|
            && (forall k :: 0 <= k < |o.types| ==> r.entries["terms"].items[k] == SerializeTerm(o.types[k]))
    ensures && r.entries["functions"].Array? && |r.entries["functions"].items| == |o.functions|
            && (forall k :: 0 <= k < |o.functions| ==> r.entries["functions"].items[k] == SerializeFunction(o.functions[k]))
    ensures && r.entries["hierarchy"].Array? && |r.entries["hierarchy"].items| == |o.hierarchy|
            && (forall k :: 0 <= k < |o.hierarchy| ==> r.entries["hierarchy"].items[k] == SerializeRelationship(o.hierarchy[k]))
    ensures MetaOf(r.entries["meta"]) == Some(o.meta)
  {
    DocumentLists(o.meta, o.types, o.functions, o.hierarchy);
    SerializeDocument(o.meta, o.types, o.functions, o.hierarchy)
  }

  /** The three lists keep the ontology's lengths and order, entry for entry. */
  lemma DocumentLists(meta: Meta, types: seq<Term>, functions: seq<Function>, hierarchy: seq<Relationship>)
    ensures var e := SerializeDocument(meta, types, functions, hierarchy).entries;
      && e["terms"].Array? && |e["terms"].items| == |types|
      && (forall k :: 0 <= k < |types| ==> e["terms"].items[k] == SerializeTerm(types[k]))
      && e["functions"].Array? && |e["functions"].items| == |functions|
      && (forall k :: 0 <= k < |functions| ==> e["functions"].items[k] == SerializeFunction(functions[k]))
      && e["hierarchy"].Array? && |e["hierarchy"].items| == |hierarchy|
      && (forall k :: 0 <= k < |hierarchy| ==> e["hierarchy"].items[k] == SerializeRelationship(hierarchy[k]))
      && MetaOf(e["meta"]) == Some(meta)
  {
    MetaRoundTrip(meta);
  }

  /** `json.dumps` accepts the document exactly when every function's and every
      relationship's attributes are a raw dictionary, as the parser leaves them. */
  lemma DocumentEncodable(meta: Meta, types: seq<Term>, functions: seq<Function>, hierarchy: seq<Relationship>)
    ensures Encodable(SerializeDocument(meta, types, functions, hierarchy))
        <==> ((forall k :: 0 <= k < |functions| ==> functions[k].attributes.Dict?)
              && (forall k :: 0 <= k < |hierarchy| ==> hierarchy[k].attributes.Dict?))
  {
    var d := SerializeDocument(meta, types, functions, hierarchy);
    var fs := FunctionTrees(functions);
    var rs := RelationshipTrees(hierarchy);
    assert d.entries["functions"] == Array(fs);
    assert d.entries["hierarchy"] == Array(rs);
    forall k | 0 <= k < |functions|
      ensures Encodable(fs[k]) <==> functions[k].attributes.Dict?
    {
      FunctionEncodable(functions[k]);
    }
  }

  /** A function entry is encodable exactly when its attributes are a raw dictionary. */
  lemma FunctionEncodable(g: Function)
    ensures Encodable(SerializeFunction(g)) <==> g.attributes.Dict?
  {
    var e := SerializeFunction(g).entries;
    assert e["attributes"] == RawFunctionAttributes(g.attributes);
    assert e["output_type"] == ArgumentTree(g.outputType);
    assert Encodable(ArgumentTree(g.outputType));
    assert e["input_types"] == Array(ArgumentTrees(g.inputTypes));
    assert forall j :: 0 <= j < |g.inputTypes| ==> Encodable(ArgumentTrees(g.inputTypes)[j]);
  }
}

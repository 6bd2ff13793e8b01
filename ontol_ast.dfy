/** The abstract syntax tree of an Ontol ontology (src/ontol/oast.py): metadata, terms,
    functions over terms, typed relationships between terms, their attribute records,
    the two closed tag sets, and the `Ontology` aggregate that the parser fills in place. */
module OntolAst {
  import opened Wrappers

  /** Ontology metadata. Every field is optional; `kind` is the source's `type` field. */
  datatype Meta = Meta(
    version: Option<string>,
    title: Option<string>,
    author: Option<string>,
    description: Option<string>,
    kind: Option<string>,
    date: Option<string>)

  /** `Meta()` with every field left at its default. */
  const NoMeta: Meta := Meta(None, None, None, None, None, None)

  datatype TermAttributes = TermAttributes(color: Option<string>, note: Option<string>)

  datatype FunctionAttributes = FunctionAttributes(
    color: Option<string>,
    colorArrow: Option<string>,
    kind: Option<RelationshipType>,
    inputTitle: Option<string>,
    outputTitle: Option<string>)

  datatype RelationshipAttributes = RelationshipAttributes(
    color: Option<string>,
    direction: Option<RelationshipDirection>,
    title: Option<string>,
    rightChar: Option<string>,
    leftChar: Option<string>)

  /** What an `attributes` field holds. The declared type is the record `R`, but the
      parser stores the raw key -> value dictionary it collected, so both occur. */
  datatype Attributes<R> = Record(fields: R) | Dict(entries: map<string, string>)

  const NoTermAttributes: TermAttributes := TermAttributes(None, None)
  const NoFunctionAttributes: FunctionAttributes := FunctionAttributes(None, None, None, None, None)
  const NoRelationshipAttributes: RelationshipAttributes := RelationshipAttributes(None, None, None, None, None)

  datatype Term = Term(name: string, labelText: string, description: string, attributes: Attributes<TermAttributes>)

  /** `Term(name)`: the dataclass defaults fill in the other fields (`labelText` is the source's `label`). */
  function NewTerm(name: string): (t: Term)
    ensures t.name == name && t.labelText == "" && t.description == ""
    ensures t.attributes.Record? && t.attributes.fields.color.None? && t.attributes.fields.note.None?
  {
    Term(name, "", "", Record(NoTermAttributes))
  }

  datatype FunctionArgument = FunctionArgument(term: Term, labelText: string)

  datatype Function = Function(
    name: string,
    labelText: string,
    inputTypes: seq<FunctionArgument>,
    outputType: FunctionArgument,
    attributes: Attributes<FunctionAttributes>)

  datatype Relationship = Relationship(
    parent: Term,
    relationship: RelationshipType,
    children: seq<Term>,
    attributes: Attributes<RelationshipAttributes>)

  datatype RelationshipDirection = Forward | Backward | Bidirectional {
    /** The enum member's value. */
    function Value(): string {
      match this
      case Forward => "forward"
      case Backward => "backward"
      case Bidirectional => "bidirectional"
    }
  }

  /** `RelationshipDirection.from_str`: the member whose value is `s`, if any. */
  function DirectionFromStr(s: string): (r: Option<RelationshipDirection>)
    ensures r.Some? ==> r.value.Value() == s
    ensures r.None? ==> forall d: RelationshipDirection :: d.Value() != s
  {
    if s == "forward" then Some(Forward)
    else if s == "backward" then Some(Backward)
    else if s == "bidirectional" then Some(Bidirectional)
    else None
  }

  /** `RelationshipDirection.has_value`: `s` is one of the values. */
  predicate DirectionHasValue(s: string) {
    s in {"forward", "backward", "bidirectional"}
  }

  lemma DirectionFromStrInverse(d: RelationshipDirection, s: string)
    ensures DirectionFromStr(d.Value()) == Some(d)
    ensures DirectionHasValue(s) <==> DirectionFromStr(s).Some?
  {
  }

  datatype RelationshipType =
    | Dependence | Association | DirectAssociation | Inheritance
    | Implementation | Aggregation | Composition
  {
    /** The enum member's value. */
    function Value(): string {
      match this
      case Dependence => "dependence"
      case Association => "association"
      case DirectAssociation => "directAssociation"
      case Inheritance => "inheritance"
      case Implementation => "implementation"
      case Aggregation => "aggregation"
      case Composition => "composition"
    }
  }

  /** `RelationshipType.from_str`: the member whose value is `s`, if any. */
  function TypeFromStr(s: string): (r: Option<RelationshipType>)
    ensures r.Some? ==> r.value.Value() == s
    ensures r.None? ==> forall t: RelationshipType :: t.Value() != s
  {
    if s == "dependence" then Some(Dependence)
    else if s == "association" then Some(Association)
    else if s == "directAssociation" then Some(DirectAssociation)
    else if s == "inheritance" then Some(Inheritance)
    else if s == "implementation" then Some(Implementation)
    else if s == "aggregation" then Some(Aggregation)
    else if s == "composition" then Some(Composition)
    else None
  }

  /** `RelationshipType.has_value`: `s` is one of the values. */
  predicate TypeHasValue(s: string) {
    s in {"dependence", "association", "directAssociation", "inheritance",
          "implementation", "aggregation", "composition"}
  }

  lemma TypeFromStrInverse(t: RelationshipType, s: string)
    ensures TypeFromStr(t.Value()) == Some(t)
    ensures TypeHasValue(s) <==> TypeFromStr(s).Some?
  {
  }

  /** `find_term_by_name`: the first term in `types` named `name`, or None when no term has
      that name. */
  function FindTerm(types: seq<Term>, name: string): (r: Option<Term>)
    ensures r.None? <==> forall k :: 0 <= k < |types| ==> types[k].name != name
    ensures r.Some? ==> r.value.name == name
                          && (exists k :: 0 <= k < |types| && types[k] == r.value
                                && forall j :: 0 <= j < k ==> types[j].name != name)
  {
    if |types| == 0 then None
    else if types[0].name == name then Some(types[0])
    else
      var r := FindTerm(types[1..], name);
      assert r.Some? ==> exists k :: 0 < k < |types| && types[k] == r.value
                            && forall j :: 0 <= j < k ==> types[j].name != name by {
        if r.Some? {
          var k :| 0 <= k < |types| - 1 && types[1..][k] == r.value
                   && forall j :: 0 <= j < k ==> types[1..][j].name != name;
          assert types[k + 1] == r.value;
          assert forall j :: 0 < j < k + 1 ==> types[j].name == types[1..][j - 1].name;
        }
      }
      r
  }

  /** `find_function_by_name`: the same first-match search over `functions`. */
  function FindFunction(functions: seq<Function>, name: string): (r: Option<Function>)
    ensures r.None? <==> forall k :: 0 <= k < |functions| ==> functions[k].name != name
    ensures r.Some? ==> r.value.name == name
                          && (exists k :: 0 <= k < |functions| && functions[k] == r.value
                                && forall j :: 0 <= j < k ==> functions[j].name != name)
  {
    if |functions| == 0 then None
    else if functions[0].name == name then Some(functions[0])
    else
      var r := FindFunction(functions[1..], name);
      assert r.Some? ==> exists k :: 0 < k < |functions| && functions[k] == r.value
                            && forall j :: 0 <= j < k ==> functions[j].name != name by {
        if r.Some? {
          var k :| 0 <= k < |functions| - 1 && functions[1..][k] == r.value
                   && forall j :: 0 <= j < k ==> functions[1..][j].name != name;
          assert functions[k + 1] == r.value;
          assert forall j :: 0 < j < k + 1 ==> functions[j].name == functions[1..][j - 1].name;
        }
      }
      r
  }

  /** Term names are pairwise distinct (the parser rejects a second type of the same name). */
  ghost predicate DistinctTermNames(types: seq<Term>) {
    forall i, j :: 0 <= i < j < |types| ==> types[i].name != types[j].name
  }

  /** Function names are pairwise distinct (the parser rejects a second function of the same name). */
  ghost predicate DistinctFunctionNames(functions: seq<Function>) {
    forall i, j :: 0 <= i < j < |functions| ==> functions[i].name != functions[j].name
  }

  /** Every term a function mentions is one of `types`. */
  ghost predicate FunctionResolved(f: Function, types: seq<Term>) {
    (forall k :: 0 <= k < |f.inputTypes| ==> f.inputTypes[k].term in types)
    && f.outputType.term in types
  }

  /** Every term a relationship mentions is one of `types`. */
  ghost predicate RelationshipResolved(r: Relationship, types: seq<Term>) {
    r.parent in types && forall k :: 0 <= k < |r.children| ==> r.children[k] in types
  }

  /** What the parser guarantees of the ontology it builds: unique names and resolved references. */
  ghost predicate Consistent(types: seq<Term>, functions: seq<Function>, hierarchy: seq<Relationship>) {
    && DistinctTermNames(types)
    && DistinctFunctionNames(functions)
    && (forall k :: 0 <= k < |functions| ==> FunctionResolved(functions[k], types))
    && (forall k :: 0 <= k < |hierarchy| ==> RelationshipResolved(hierarchy[k], types))
  }

  /** With distinct names, the first match is the only match: looking a member of
      `types` up by its name gives it back. */
  lemma {:induction false} FindTermOfMember(types: seq<Term>, k: nat)
    requires DistinctTermNames(types) && k < |types|
    ensures FindTerm(types, types[k].name) == Some(types[k])
  {
    var r := FindTerm(types, types[k].name);
    var i :| 0 <= i < |types| && types[i] == r.value && forall j :: 0 <= j < i ==> types[j].name != types[k].name;
    assert !(k < i);
    assert !(i < k);
  }

  /** The ontology root, updated in place by `add_*` and `set_meta`. */
  class Ontology {
    var types: seq<Term>
    var functions: seq<Function>
    var hierarchy: seq<Relationship>
    var meta: Meta

    constructor()
      ensures types == [] && functions == [] && hierarchy == [] && meta == NoMeta
    {
      types := [];
      functions := [];
      hierarchy := [];
      meta := NoMeta;
    }

    method AddType(t: Term)
      modifies this
      ensures types == old(types) + [t]
      ensures functions == old(functions) && hierarchy == old(hierarchy) && meta == old(meta)
    {
      types := types + [t];
    }

    method AddFunction(f: Function)
      modifies this
      ensures functions == old(functions) + [f]
      ensures types == old(types) && hierarchy == old(hierarchy) && meta == old(meta)
    {
      functions := functions + [f];
    }

    method AddRelationship(r: Relationship)
      modifies this
      ensures hierarchy == old(hierarchy) + [r]
      ensures types == old(types) && functions == old(functions) && meta == old(meta)
    {
      hierarchy := hierarchy + [r];
    }

    /** Unconditional replacement: this revision has no once-only guard. */
    method SetMeta(m: Meta)
      modifies this
      ensures meta == m
      ensures types == old(types) && functions == old(functions) && hierarchy == old(hierarchy)
    {
      meta := m;
    }

    /** `find_term_by_name`: the first term of that name, if any. */
    function FindTermByName(name: string): (r: Option<Term>)
      reads this
      ensures r.None? <==> forall k :: 0 <= k < |types| ==> types[k].name != name
      ensures r.Some? ==> r.value.name == name
                            && (exists k :: 0 <= k < |types| && types[k] == r.value
                                  && forall j :: 0 <= j < k ==> types[j].name != name)
    {
      FindTerm(types, name)
    }

    /** `find_function_by_name`: the first function of that name, if any. */
    function FindFunctionByName(name: string): (r: Option<Function>)
      reads this
      ensures r.None? <==> forall k :: 0 <= k < |functions| ==> functions[k].name != name
      ensures r.Some? ==> r.value.name == name
                            && (exists k :: 0 <= k < |functions| && functions[k] == r.value
                                  && forall j :: 0 <= j < k ==> functions[j].name != name)
    {
      FindFunction(functions, name)
    }
  }
}

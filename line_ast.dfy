/** The abstract syntax tree of the line-oriented prototype (src/oast.py): terms with a raw
    attribute dictionary, functions whose arguments are `(name, label)` pairs, relationships
    held as three words, and an `Ontology` whose metadata can be set only once. */
module LineAst {
  import opened Wrappers

  datatype Term = Term(name: string, labelText: string, description: string, attributes: map<string, string>)

  /** `Term(name, label, description)`: `attributes` defaults to an empty dictionary. */
  function NewTerm(name: string, labelText: string, description: string): (t: Term)
    ensures t.name == name && t.labelText == labelText && t.description == description
    ensures t.attributes == map[]
  {
    Term(name, labelText, description, map[])
  }

  /** An argument or result: the term's name and the label written beside it. */
  type Parameter = (string, string)

  datatype Function = Function(name: string, labelText: string, inputTypes: seq<Parameter>, outputType: Parameter)

  /** `parent relationship child`, each kept as the word that was written. */
  datatype Relationship = Relationship(parent: string, relationship: string, child: string)

  /** `kind` is the source's `type` field. */
  datatype Meta = Meta(
    version: Option<string>,
    name: Option<string>,
    author: Option<string>,
    description: Option<string>,
    kind: Option<string>,
    dateCreated: Option<string>)

  /** The message `set_meta` raises with (as a ValueError) once metadata is present. */
  const MetaAlreadySet: string := "Meta information is already set and can only be set once."

  class Ontology {
    var types: seq<Term>
    var functions: seq<Function>
    var hierarchy: seq<Relationship>
    var meta: Option<Meta>

    constructor()
      ensures types == [] && functions == [] && hierarchy == [] && meta == None
    {
      types := [];
      functions := [];
      hierarchy := [];
      meta := None;
    }

    method AddType(t: Term)
      modifies this
      ensures types == old(types) + [t]
      ensures functions == old(functions) && hierarchy == old(hierarchy) && meta == old(meta)
    {
      types := types + [t];
    }

    method AddFunction(f: Function)
      modifies this
      ensures functions == old(functions) + [f]
      ensures types == old(types) && hierarchy == old(hierarchy) && meta == old(meta)
    {
      functions := functions + [f];
    }

    method AddRelationship(r: Relationship)
      modifies this
      ensures hierarchy == old(hierarchy) + [r]
      ensures types == old(types) && functions == old(functions) && meta == old(meta)
    {
      hierarchy := hierarchy + [r];
    }

    /** Stores `m` if no metadata is present yet; otherwise reports the ValueError message
        and leaves everything as it was. */
    method SetMeta(m: Meta) returns (raised: Option<string>)
      modifies this
      ensures old(meta).None? ==> raised.None? && meta == Some(m)
      ensures old(meta).Some? ==> raised == Some(MetaAlreadySet) && meta == old(meta)
      ensures types == old(types) && functions == old(functions) && hierarchy == old(hierarchy)
    {
      if meta.Some? {
        return Some(MetaAlreadySet);
      }
      meta := Some(m);
      return None;
    }
  }

  /** Only the first of two `set_meta` calls on a fresh ontology takes effect. */
  method SetMetaOnce(first: Meta, second: Meta) returns (o: Ontology, raised: Option<string>)
    ensures fresh(o) && o.meta == Some(first) && raised == Some(MetaAlreadySet)
    ensures o.types == [] && o.functions == [] && o.hierarchy == []
  {
    o := new Ontology();
    var ok := o.SetMeta(first);
    raised := o.SetMeta(second);
  }
}

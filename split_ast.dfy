/** The abstract syntax tree of the split-based prototype (parser/oast.py): terms with an
    optional description, functions with input and output type lists, relationships kept
    as the text of their line, and an `Ontology` whose metadata can be set only once. */
module SplitAst {
  import opened Wrappers

  datatype Term = Term(name: string, description: Option<string>)

  datatype Function = Function(name: string, inputTypes: seq<string>, outputTypes: seq<string>,
                               labelText: Option<string>, description: Option<string>)

  /** A hierarchy line, kept whole. */
  datatype Relationship = Relationship(expression: string)

  datatype Meta = Meta(version: Option<string>, name: Option<string>, author: Option<string>,
                       description: Option<string>, dateCreated: Option<string>)

  /** The message `set_meta` raises with (as a ValueError) once metadata is present. */
  const MetaAlreadySet: string := "Meta information is already set and can only be set once."

  /** What an ontology holds at one moment: its three lists and its metadata. */
  datatype Contents = Contents(types: seq<Term>, functions: seq<Function>, hierarchy: seq<Relationship>,
                               meta: Option<Meta>)

  class Ontology {
    var types: seq<Term>
    var functions: seq<Function>
    var hierarchy: seq<Relationship>
    var meta: Option<Meta>

    constructor()
      ensures types == [] && functions == [] && hierarchy == [] && meta == None
    {
      types := [];
      functions := [];
      hierarchy := [];
      meta := None;
    }

    function Snapshot(): Contents
      reads this
    {
      Contents(types, functions, hierarchy, meta)
    }

    method AddType(t: Term)
      modifies this
      ensures types == old(types) + [t]
      ensures functions == old(functions) && hierarchy == old(hierarchy) && meta == old(meta)
    {
      types := types + [t];
    }

    method AddFunction(f: Function)
      modifies this
      ensures functions == old(functions) + [f]
      ensures types == old(types) && hierarchy == old(hierarchy) && meta == old(meta)
    {
      functions := functions + [f];
    }

    method AddRelationship(r: Relationship)
      modifies this
      ensures hierarchy == old(hierarchy) + [r]
      ensures types == old(types) && functions == old(functions) && meta == old(meta)
    {
      hierarchy := hierarchy + [r];
    }

    /** Stores `m` if no metadata is present yet; otherwise reports the ValueError message
        and leaves everything as it was. */
    method SetMeta(m: Meta) returns (raised: Option<string>)
      modifies this
      ensures old(meta).None? ==> raised.None? && meta == Some(m)
      ensures old(meta).Some? ==> raised == Some(MetaAlreadySet) && meta == old(meta)
      ensures types == old(types) && functions == old(functions) && hierarchy == old(hierarchy)
    {
      if meta.Some? {
        return Some(MetaAlreadySet);
      }
      meta := Some(m);
      return None;
    }
  }
}

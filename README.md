# Ontol in Dafny

Ontol is a small text language for describing an ontology. A document holds optional
metadata (version, title, author, description, date, type), a block of `types`
(terms), a block of `functions` (named maps from input terms to output terms) and a
`hierarchy` block (relationships between terms, such as `A is_a B` or `A part_of B`).
The toolchain parses such a document into an ontology tree. From that tree it can:
- write JSON;
- write PlantUML source, and the `plantuml.com` URL of its picture;
- translate the tree back into Ontol text.

The repository holds three generations of the toolchain. This project models all
three, one Dafny file per Python file:

| Python source | Dafny file | module |
|---|---|---|
| `src/ontol/oast.py` | `ontol_ast.dfy` | `OntolAst` |
| `src/ontol/parser.py` (lexer) | `ontol_lexer.dfy` | `OntolLexer` |
| `src/ontol/parser.py` (grammar rules as a recogniser) | `ontol_grammar.dfy` | `OntolGrammar` |
| `src/ontol/parser.py` (rule actions, parser object) | `ontol_parser.dfy` | `OntolParser` |
| `src/ontol/plantuml.py` | `ontol_plantuml.dfy` | `PlantUml` |
| `src/ontol/retranslator.py` | `ontol_retranslator.dfy` | `Retranslator` |
| `src/ontol/serializer.py` | `ontol_serializer.dfy` | `JsonSerializer` |
| `src/oast.py` | `line_ast.dfy` | `LineAst` |
| `src/parser.py` (its regular expressions) | `line_patterns.dfy` | `LinePatterns` |
| `src/parser.py` | `line_parser.dfy` | `LineParser` |
| `parser/oast.py` | `split_ast.dfy` | `SplitAst` |
| `parser/parser.py` | `split_parser.dfy` | `SplitParser` |
| `parser/serializer.py` | `split_serializer.dfy` | `SplitSerializer` |
| `parser/plantuml_generator.py` | `split_plantuml.dfy` | `SplitPlantUml` |

Two shared modules complete the project:
- `wrappers.dfy` (`Wrappers`) holds `Option` and `Result`.
- `text.dfy` (`Text`) models the Python `str` operations the sources use: `join`,
  `split`, `strip`, `splitlines`, `count`, `str(int)` and `startswith`.

The main modelling choices:
- Each `Ontology` object is a Dafny `class`. Its list fields are `seq` fields that the
  `add_*` methods reassign.
- The parser objects and their loops are `method`s proved against specification
  functions. Code that only computes a value (the generators, the serializers, the
  retranslator, the lexer rules) is written as functions and lemmas.
- A Python exception becomes the error case of a `Result` or an `Option`. How much
  of it is kept differs by module:
  - the three parsers keep its class and message;
  - the JSON serializer keeps the message;
  - the PlantUML generator keeps the class (`PlantUml.Fault`);
  - the retranslator only records that an exception was raised, by returning `None`.
- `hash(...)` and `datetime.today()` are parameters. The PlantUML note id and the
  default creation date therefore appear as inputs.
- Python's `repr` of a string, which the retranslator writes into its output, is
  modelled for the characters up to U+00FF: the choice of quote, the backslash escapes
  and the `\xhh` escapes. Characters above U+00FF are written as they are (see
  "Left out").

The code and the prose disagree in a few places. This model follows the code:
- In `src/parser.py`, a line is dispatched by what it starts with. So a type named
  `type` in the types block is read as the metadata line `type:`
  (`LineParser.TypeNamedType`).
- In `parser/parser.py`, `types:` and `functions:` start with `type` and `function`.
  They are parsed as entries and raise `IndexError` (`SplitParser.TypesHeaderRaises`,
  `SplitParser.FunctionsHeaderRaises`).
- In `parser/parser.py`, `hierarchy:` itself is stored as a relationship
  (`SplitParser.StepRelationship`).
- In `parser/parser.py`, an empty parameter list `()` gives the list `[""]`
  (`SplitParser.EmptyListIsOneName`).
- In `src/ontol`, the parser stores attributes as a raw dictionary, while the
  generators read the record classes of `oast.py`. The model carries both forms
  (`OntolAst.Attributes`).
- `src/ontol/plantuml.py` refers to names that `src/ontol/oast.py` does not define:
  `RelationshipType.DEPENDS`, `RelationshipType.REALIZATION`, `left_char`, `right_char`
  and `RelationshipAttrubutes`. Here the code cannot be followed literally, because
  every relationship line would then raise. The model uses the members the names
  evidently stand for: `DEPENDENCE`, `IMPLEMENTATION`, `leftChar`, `rightChar` and
  `RelationshipAttributes`. The same holds for `color_arrow`, `input_title` and
  `output_title` on `FunctionAttributes`.
- `src/ontol/parser.py` reads and writes `meta.date_created`, which the `Meta` of
  `src/ontol/oast.py` does not declare (it has `date`). The model keeps both readings:
  the code as written fails, and the corrected parser fills `date` (see "Findings").

## Model

| member | source | states |
|---|---|---|
| OntolAst.NewTerm | src/ontol/oast.py:28-41 | `Term(name)` has the given name, an empty label and description, and default attributes with no colour and no note |
| OntolAst.DirectionFromStr | src/ontol/oast.py:47-54 | `from_str` yields the direction whose value is the string, and `None` exactly when no direction has that value |
| OntolAst.DirectionFromStrInverse | src/ontol/oast.py:52-58 | `from_str(d.value)` is `d` for every direction, and `has_value(s)` holds exactly when `from_str(s)` finds a member |
| OntolAst.TypeFromStr | src/ontol/oast.py:61-73 | `from_str` yields the relationship type whose value is the string, and `None` exactly when no type has that value |
| OntolAst.TypeFromStrInverse | src/ontol/oast.py:71-77 | `from_str(t.value)` is `t` for every type, and `has_value(s)` holds exactly when `from_str(s)` finds a member |
| OntolAst.FindTerm | src/ontol/oast.py:189-190 | the first term in list order with the name, or `None` exactly when no term has it |
| OntolAst.FindFunction | src/ontol/oast.py:192-195 | the first function in list order with the name, or `None` exactly when no function has it |
| OntolAst.FindTermOfMember | src/ontol/oast.py:189-190 | when term names are distinct, looking up a listed term's name gives back that term |
| OntolAst.Ontology.constructor | src/ontol/oast.py:171-175 | a new ontology has empty types, functions and hierarchy and the default `Meta()` |
| OntolAst.Ontology.AddType | src/ontol/oast.py:177-178 | appends the term to `types`; the other fields are unchanged |
| OntolAst.Ontology.AddFunction | src/ontol/oast.py:180-181 | appends the function to `functions`; the other fields are unchanged |
| OntolAst.Ontology.AddRelationship | src/ontol/oast.py:183-184 | appends the relationship to `hierarchy`; the other fields are unchanged |
| OntolAst.Ontology.SetMeta | src/ontol/oast.py:186-187 | replaces the metadata, possibly a second time; the lists are unchanged |
| OntolAst.Ontology.FindTermByName | src/ontol/oast.py:189-190 | the object's lookup yields the first of its current `types` with that name, and `None` exactly when none has it |
| OntolAst.Ontology.FindFunctionByName | src/ontol/oast.py:192-195 | the object's lookup yields the first of its current `functions` with that name, and `None` exactly when none has it |
| LineAst.NewTerm | src/oast.py:9-14 | a term holds the given name, label and description and an empty attribute dictionary |
| LineAst.Ontology.constructor | src/oast.py:64-69 | a new ontology has empty lists and no metadata |
| LineAst.Ontology.AddType | src/oast.py:71-72 | appends the term to `types`; the other fields are unchanged |
| LineAst.Ontology.AddFunction | src/oast.py:74-75 | appends the function to `functions`; the other fields are unchanged |
| LineAst.Ontology.AddRelationship | src/oast.py:77-78 | appends the relationship to `hierarchy`; the other fields are unchanged |
| LineAst.Ontology.SetMeta | src/oast.py:80-85 | sets the metadata when none is set; otherwise raises `ValueError` and leaves the metadata as it was; the lists never change |
| LineAst.SetMetaOnce | src/oast.py:80-85 | setting metadata twice keeps the first value and raises `ValueError` on the second call |
| SplitAst.Ontology.constructor | parser/oast.py:66-71 | a new ontology has empty lists and no metadata |
| SplitAst.Ontology.AddType | parser/oast.py:73-74 | appends the term to `types`; the other fields are unchanged |
| SplitAst.Ontology.AddFunction | parser/oast.py:76-77 | appends the function to `functions`; the other fields are unchanged |
| SplitAst.Ontology.AddRelationship | parser/oast.py:79-80 | appends the relationship to `hierarchy`; the other fields are unchanged |
| SplitAst.Ontology.SetMeta | parser/oast.py:82-87 | sets the metadata when none is set; otherwise raises `ValueError` and leaves the metadata as it was; the lists never change |
| OntolLexer.RunEnd | src/ontol/parser.py:54-65 | the end of the longest run of matching characters from a position: every character before it matches, and the one at it does not |
| OntolLexer.KeywordAt | src/ontol/parser.py:42-51 | a keyword is recognised exactly when its text (`types:`, `version:` and the rest) starts at the position, and no keyword is reported otherwise |
| OntolLexer.PunctuationOf | src/ontol/parser.py:56-63 | a punctuation token is recognised exactly when the character is its text |
| OntolLexer.LexString | src/ontol/parser.py:53-76 | a quoted string runs to the next matching quote; its value is the text between the quotes and it ends just after the closing quote |
| OntolLexer.LexIdentifier | src/ontol/parser.py:54 | an identifier is the longest run of letters, digits and underscores from a letter or underscore |
| OntolLexer.LexNewline | src/ontol/parser.py:67-71 | a `NEWLINE` token is the whole run of newlines at the position |
| OntolLexer.LexFixed | src/ontol/parser.py:42-63 | a keyword or punctuation token's value is its fixed text, found at the position |
| OntolLexer.NextStep | src/ontol/parser.py:39-80 | one lexer step: emits a well-formed token starting at the position, skips a blank or a comment, or reports an illegal character |
| OntolLexer.LexFrom | src/ontol/parser.py:15-80 | every token lexed from a position is well-formed, starts at or after the position and carries a line number at least the starting one |
| OntolLexer.Lex | src/ontol/parser.py:15-80 | every token of a document is well-formed and numbered from line 1 |
| OntolLexer.Tokenize | src/ontol/parser.py:15-80 | the lexer loop produces exactly the tokens of `Lex` and stops at the first illegal character |
| OntolLexer.LexLeadingGap | src/ontol/parser.py:39-65 | only blanks, tabs and a comment lie before the first token |
| OntolLexer.LexGaps | src/ontol/parser.py:39-65 | tokens come in text order, without overlap, and only blanks, tabs and a comment lie between two of them |
| OntolLexer.LexEnd | src/ontol/parser.py:39-80 | after the last token there is only layout, or an illegal character that no rule matches, with only layout before it |
| OntolLexer.EmitEnds | src/ontol/parser.py:39-80 | the end-of-text property carries back over an emitted token |
| OntolLexer.SkipEnds | src/ontol/parser.py:39-65 | the end-of-text property carries back over skipped layout |
| OntolLexer.CommentGap | src/ontol/parser.py:65 | a comment runs to the end of its line, yields no token, and lexing resumes at the newline |
| OntolLexer.LexLines | src/ontol/parser.py:67-71 | the first token carries the starting line, and each `NEWLINE` token advances the line count by the newlines it holds |
| OntolLexer.EmitNumbered | src/ontol/parser.py:67-71 | line numbering carries back over an emitted token |
| OntolLexer.LinesWithinMember | src/ontol/parser.py:67-71 | a token's line number is between 1 and the number of lines up to the token |
| OntolLexer.LexLineBound | src/ontol/parser.py:67-71 | every token's line number is at most one more than the newlines before it |
| OntolLexer.TokenLineExists | src/ontol/parser.py:105-106 | every token's line number names an existing line of the text, so the diagnostic can show that line |
| OntolLexer.KeywordNeverIdentifierColon | src/ontol/parser.py:42-54 | keyword rules come before `IDENTIFIER`, so an identifier directly followed by `:` never spells a keyword |
| OntolGrammar.ItemAt | src/ontol/parser.py:329-331 | an item is `IDENTIFIER COLON STRING`; the key and value are the first and third tokens and three tokens are consumed |
| OntolGrammar.ListRest | src/ontol/parser.py:322-327 | a list keeps the items read so far as its prefix, consumes at least one token, and ends only where a comma, a NEWLINE or its closing bracket follows the last item; a parameter list runs no action |
| OntolGrammar.ListClose | src/ontol/parser.py:284-290 | a list ends at its closing bracket, reached directly, after a NEWLINE, or after a comma and NEWLINE when the list opened with a NEWLINE; the end adds no item and runs no action |
| OntolGrammar.ListRestShape | src/ontol/parser.py:394-415 | the rest of a list ends at its closing bracket, and every item is `IDENTIFIER: STRING`; in an attribute list, one attribute action runs per item, in order |
| OntolGrammar.Bracketed | src/ontol/parser.py:284-290 | a bracketed list consumes at least its opening token; a parameter list runs no action while it is read |
| OntolGrammar.BracketedShape | src/ontol/parser.py:380-408 | a bracketed list opens and closes with its brackets and holds only `IDENTIFIER: STRING` items; as an attribute list it runs one attribute action per item |
| OntolGrammar.FirstItemShape | src/ontol/parser.py:394-404 | the same, for a list whose first item follows the opening bracket |
| OntolGrammar.EntryAttributes | src/ontol/parser.py:380-392 | an absent attribute block is the empty attribute list and consumes nothing |
| OntolGrammar.EntryAttributesShape | src/ontol/parser.py:380-415 | the attributes of an entry are typed items, one attribute action each, in order |
| OntolGrammar.EndEntry | src/ontol/parser.py:192-199 | an entry is complete only at its NEWLINE, which it consumes; the actions run are kept either way |
| OntolGrammar.TypeLine | src/ontol/parser.py:201 | a recognised type line consumes at least one token and stays within the token list |
| OntolGrammar.TypeLineShape | src/ontol/parser.py:201-227 | a type line is `IDENTIFIER COLON STRING COMMA STRING attributes NEWLINE`; it runs its attribute actions, then one type action with the name, label and description tokens |
| OntolGrammar.FunctionLine | src/ontol/parser.py:242 | a recognised function line consumes at least one token and stays within the token list |
| OntolGrammar.FunctionTail | src/ontol/parser.py:242 | the part after the parameters consumes at least one token and stays within the token list |
| OntolGrammar.FunctionLineShape | src/ontol/parser.py:242-290 | a function line runs the parameter-list action first, then its attribute actions, then one function action with the name and label tokens, the typed parameters and the `IDENTIFIER: STRING` output |
| OntolGrammar.HierarchyLine | src/ontol/parser.py:345 | a recognised hierarchy line consumes at least one token and stays within the token list |
| OntolGrammar.HierarchyLineShape | src/ontol/parser.py:345-378 | a hierarchy line is three IDENTIFIERs, then attributes and NEWLINE; it runs its attribute actions, then one hierarchy action with the parent, tag and child tokens |
| OntolGrammar.Entries | src/ontol/parser.py:192-199 | a block's entries, one per line while an IDENTIFIER follows, stay within the token list |
| OntolGrammar.SkipNewlines | src/ontol/parser.py:192-199 | skips exactly the run of NEWLINE tokens a `types:` or `functions:` list may open with |
| OntolGrammar.BlockBody | src/ontol/parser.py:188-199 | a block body stays within the token list |
| OntolGrammar.MetaWaitsForLookahead | src/ontol/parser.py:146-186 | a meta statement's action runs, as the first action from its position, exactly when the token after its NEWLINE can start a statement or the input ends there; otherwise no action runs and the parse fails at that token |
| OntolGrammar.MetaBeforeIllegalRunsNothing | src/ontol/parser.py:146-151 | after `version: '1'` and a newline, an illegal character raises the lexer's error before any action runs, so the version is never stored |
| OntolParser.Caret | src/ontol/parser.py:116-121 | the corrected caret line for a column is four spaces of padding, then `column` spaces, then `^` under the token's character |
| OntolParser.CaretAsWrittenAgrees | src/ontol/parser.py:116-121 | from column 1 on, the source's caret line is the corrected one; at column 0 it is the line for column 1, one character too far right |
| OntolParser.Lowered | src/ontol/parser.py:122-124 | the quoted message keeps its length and all but its first character, and an upper-case first letter is lowered |
| OntolParser.DiagnosticLayout | src/ontol/parser.py:104-126 | a diagnostic is exactly four lines: `File "<path>", line <n>`, the source line indented by four, the caret line, and the prefix with the lowered message; the caret stands under the token's first character |
| OntolParser.WarnIfEmpty | src/ontol/parser.py:148-149 | an action adds one warning when its string is empty, and none otherwise |
| OntolParser.MetaSet | src/ontol/parser.py:146-186 | a meta statement sets its own field and no other |
| OntolParser.ApplyMeta | src/ontol/parser.py:146-186 | a meta statement leaves the three lists alone, sets its field to the string, keeps every other field, and appends one warning exactly when the string is empty |
| OntolParser.ApplyAttribute | src/ontol/parser.py:410-415 | an attribute changes only the warnings: one is appended exactly when its value is empty |
| OntolParser.MergeAttributesKeys | src/ontol/parser.py:394-408 | the attribute dictionary has exactly the keys of the list's items |
| OntolParser.MergeAttributesLastWins | src/ontol/parser.py:394-400 | a key holds the value of the last item that names it |
| OntolParser.ApplyType | src/ontol/parser.py:201-227 | a type entry raises `ValueError` and changes nothing exactly when a term of that name is already declared; otherwise it appends the term with its raw attribute dictionary, changes nothing else, and warns once for an empty label and once for an empty description |
| OntolParser.ResolveParams | src/ontol/parser.py:291-312 | the `params` action resolves the parameters in order, each to the first term of its name with its label; it resolves all of them, or stops with `ValueError` at the first parameter whose term is undefined |
| OntolParser.ResolveParamsStops | src/ontol/parser.py:302-305 | once a parameter has raised, later parameters change nothing |
| OntolParser.ResolveParamsNext | src/ontol/parser.py:300-310 | a parameter whose term is found adds its argument and its label's warning |
| OntolParser.ResolveParamsUndefined | src/ontol/parser.py:300-305 | a parameter whose term is undefined raises at its own token, and that outcome is final |
| OntolParser.ResolveParamsFails | src/ontol/parser.py:291-312 | the `params` action raises exactly when some parameter names an undefined term, and every term it resolved is a declared one |
| OntolParser.ResolveParamsWarnings | src/ontol/parser.py:307-308 | a successful `params` action warns once per empty parameter label |
| OntolParser.ApplyFunction | src/ontol/parser.py:242-282 | a function entry raises `ValueError` and changes nothing exactly when its name is already declared or its output names no term; otherwise it appends one function with the name, label, resolved arguments, the declared output term with its label and the raw attributes, and warns once per empty label |
| OntolParser.ApplyHierarchy | src/ontol/parser.py:345-378 | a hierarchy entry raises `ValueError` and changes nothing exactly when the parent is undefined, the tag is no relationship type, or the child is undefined; otherwise it appends one relationship between those declared terms, with that type and the raw attributes |
| OntolParser.FaultError | src/ontol/parser.py:421-431 | every syntax fault, from the grammar or from the lexer, raises `SyntaxError` |
| OntolParser.Finish | src/ontol/parser.py:132-136 | the corrected `program` action changes only the date: a non-empty date is kept, and a missing or empty one becomes `today` |
| OntolParser.Settle | src/ontol/parser.py:91-102 | an action's exception stands; otherwise the grammar's fault raises; the ending changes only the metadata, and a parse that raises nothing has a date |
| OntolParser.ApplyTypeKeepsConsistent | src/ontol/parser.py:201-227 | a type entry only appends, and keeps names distinct and every reference resolved |
| OntolParser.ApplyFunctionKeepsConsistent | src/ontol/parser.py:242-282 | a function entry with resolved arguments only appends, and keeps names distinct and every reference resolved |
| OntolParser.FunctionAppendConsistent | src/ontol/parser.py:244-282 | appending a function under a new name, whose terms are all declared, keeps the ontology consistent |
| OntolParser.ApplyHierarchyKeepsConsistent | src/ontol/parser.py:345-378 | a hierarchy entry only appends, and keeps every reference resolved |
| OntolParser.ApplyKeepsConsistent | src/ontol/parser.py:146-415 | every action keeps the ontology consistent, only appends to it, and leaves the argument list it passes on resolved |
| OntolParser.RunKeepsConsistent | src/ontol/parser.py:98-100 | running the actions keeps the ontology consistent and only appends to it, whether or not one raises, so the entries made before an exception stay |
| OntolParser.ParseKeepsConsistent | src/ontol/parser.py:91-136 | a whole parse keeps the ontology consistent and only appends to it; a parse that raises nothing leaves a date set |
| OntolParser.DateCreatedAfter | src/ontol/parser.py:174-179 | only a `date:` statement sets `date_created`: without one it stays as it was, and once set it is never unset |
| OntolParser.ProgramAsWritten | src/ontol/parser.py:132-136 | the `program` action as written raises `AttributeError` exactly when `date_created` was never set, and keeps a set, non-empty value |
| OntolParser.EmptyTextHasNoEvents | src/ontol/parser.py:91-102 | the empty file yields no action and no syntax fault |
| OntolParser.UndatedTextFailsAsWritten | src/ontol/parser.py:132-136 | on a fresh parser, a text with no `date:` statement that reaches the `program` action fails there as written; the empty file is one such text |
| OntolParser.EmptyTextParses | src/ontol/parser.py:132-136 | with the corrected field, the empty file parses to an empty ontology dated `today` |
| OntolParser.Parser.constructor | src/ontol/parser.py:87-89 | a fresh parser holds a new, empty ontology and no warnings |
| OntolParser.Parser.AddWarning | src/ontol/parser.py:128-130 | appends the diagnostic for the token as a warning |
| OntolParser.Parser.WarnIfEmptyValue | src/ontol/parser.py:148-149 | appends the warning exactly when the token's string is empty |
| OntolParser.Parser.MetaAction | src/ontol/parser.py:146-186 | the parser's state after a meta statement is `ApplyMeta` of its state before |
| OntolParser.Parser.AttributeAction | src/ontol/parser.py:410-415 | the parser's state after an attribute is `ApplyAttribute` of its state before |
| OntolParser.Parser.TypeAction | src/ontol/parser.py:201-227 | the new state and the exception are those `ApplyType` gives |
| OntolParser.Parser.ParamsAction | src/ontol/parser.py:291-312 | the loop returns the arguments, warnings and exception `ResolveParams` gives |
| OntolParser.Parser.ParamAction | src/ontol/parser.py:294-310 | one turn of that loop extends the resolved prefix by one parameter, or ends with the final outcome |
| OntolParser.Parser.FunctionAction | src/ontol/parser.py:242-282 | the new state and the exception are those `ApplyFunction` gives |
| OntolParser.Parser.HierarchyAction | src/ontol/parser.py:345-378 | the new state and the exception are those `ApplyHierarchy` gives |
| OntolParser.Parser.Step | src/ontol/parser.py:146-415 | one reduction's action has the effect `Apply` gives |
| OntolParser.Parser.ProgramAction | src/ontol/parser.py:132-136 | the corrected `program` action leaves the state `Finish` gives |
| OntolParser.Parser.RunEvents | src/ontol/parser.py:98-100 | the actions run in order until the first exception, as `Run` gives |
| OntolParser.Parser.Parse | src/ontol/parser.py:91-102 | `parse` ends in the state and with the exception `ParseSpec` gives, returns the warnings on success, and keeps the text's lines and the path for its diagnostics |
| PlantUml.UnescapeNewlines | src/ontol/plantuml.py:96 | the note text's `\n` escapes become line breaks, so the text never grows |
| PlantUml.EscapeNewlines | src/ontol/plantuml.py:96 | the reverse substitution leaves no line break |
| PlantUml.EscapeUnescape | src/ontol/plantuml.py:96 | for a note without line breaks, escaping the substituted text gives the note back: the substitution loses nothing |
| PlantUml.UnescapeLeavesNoPair | src/ontol/plantuml.py:96 | after the substitution no backslash is followed by `n` |
| PlantUml.RectangleShape | src/ontol/plantuml.py:85-90 | a rectangle starts with `rectangle "` and the label, shows `\n(description)` exactly when the description is non-empty, and ends with `" as <name> <color>` |
| PlantUml.Note | src/ontol/plantuml.py:93-98 | a term's note line is empty exactly when its note is missing or empty |
| PlantUml.Glyph | src/ontol/plantuml.py:102-138 | every arrow glyph of the table has at least three characters |
| PlantUml.GlyphTable | src/ontol/plantuml.py:102-138 | association draws `---` in every direction; every other relationship type draws a different arrow for each direction |
| PlantUml.Arrow | src/ontol/plantuml.py:154-164 | the arrow is the glyph with `[color]` spliced in after its first two characters |
| PlantUml.ArrowUncolored | src/ontol/plantuml.py:154-164 | taking the colour back out of the arrow leaves the table's glyph |
| PlantUml.LineFields | src/ontol/plantuml.py:139-171 | a relationship line has six fields |
| PlantUml.RelationshipLine | src/ontol/plantuml.py:165-171 | a relationship line ends with a line break |
| PlantUml.RelationshipLineFields | src/ontol/plantuml.py:139-171 | when names, colour and labels hold no space, the line splits at its spaces into the parent, the quoted left label (or nothing), the coloured arrow, the quoted right label (or nothing), the first child and the words of the title |
| PlantUml.CompositionLineExample | src/ontol/plantuml.py:101-171 | a black forward composition between two plain terms has the fields `MyTypeParent`, empty, `--[#black]-*`, empty, `MyTypeChild`, empty |
| PlantUml.ArgumentTexts | src/ontol/plantuml.py:176-179 | one text per argument, in order: `name: label`, or the bare name for an empty label |
| PlantUml.FunctionTerm | src/ontol/plantuml.py:175-191 | a function is drawn as a term with its name, label and colour, no note, and the description `inputs -> output` |
| PlantUml.FunctionTermInputs | src/ontol/plantuml.py:176-186 | when no argument text holds a comma, the description's input part splits at its commas back into the argument texts, one per argument, in order |
| PlantUml.InputNames | src/ontol/plantuml.py:197-198 | the term names of the arguments, one per argument, in order |
| PlantUml.FirstAppearance | src/ontol/plantuml.py:196-199 | the counting dictionary's keys are distinct and are exactly the input term names |
| PlantUml.CountsCoverArguments | src/ontol/plantuml.py:196-198 | the counts of the dictionary's keys add up to the number of arguments, and every key counts at least one |
| PlantUml.InputEdge | src/ontol/plantuml.py:199-213 | an input edge runs from the named term into a plain term named after the function, and can be drawn |
| PlantUml.OutputEdge | src/ontol/plantuml.py:214-225 | the output edge runs from a plain term named after the function to the output term, and can be drawn |
| PlantUml.InputEdges | src/ontol/plantuml.py:199-213 | one drawable edge per counted name |
| PlantUml.InputEdgesAt | src/ontol/plantuml.py:199-213 | the `k`th input edge belongs to the `k`th key, with that key's count |
| PlantUml.FunctionEdgesSpec | src/ontol/plantuml.py:194-226 | a function has one edge per distinct input term and one more to its output, all drawable |
| PlantUml.FunctionEdgesUniform | src/ontol/plantuml.py:199-225 | every edge of a function is a forward edge of the function's relationship type in its arrow colour |
| PlantUml.FunctionEdgesShape | src/ontol/plantuml.py:199-225 | the input edges follow the keys in first-appearance order, each from its term into the function, labelled with the count exactly when the term is used more than once; the last edge runs from the function to its output term |
| PlantUml.DoubleInputExample | src/ontol/plantuml.py:199-213 | a term used twice as an input gives one edge, `MyTypeChild "2" --[#E6B8B7]-> MyFunction1` |
| PlantUml.CountNames | src/ontol/plantuml.py:196-198 | the counting loop yields the distinct names in first-appearance order, each with its number of occurrences |
| PlantUml.CountedEdges | src/ontol/plantuml.py:199-213 | the edge loop makes the input edges in the dictionary's order |
| PlantUml.FunctionEdges | src/ontol/plantuml.py:194-226 | `__prepare_function_hierarchy` returns the edges `FunctionEdgesSpec` describes |
| PlantUml.Header | src/ontol/plantuml.py:50-61 | nine fixed opening lines, `@startuml` first and the package line last, named by the title or "Онтология" |
| PlantUml.TermLines | src/ontol/plantuml.py:64-66 | a rectangle and a note line per term |
| PlantUml.FunctionTermLines | src/ontol/plantuml.py:68-71 | one rectangle per function |
| PlantUml.RelationshipLines | src/ontol/plantuml.py:77-78 | one line per relationship |
| PlantUml.DocumentFraming | src/ontol/plantuml.py:49-82 | the document opens with `@startuml` and a line break and closes with `}` and `@enduml` |
| PlantUml.AppendTermLines | src/ontol/plantuml.py:64-66 | the term loop appends the term lines in order |
| PlantUml.AppendFunctionTermLines | src/ontol/plantuml.py:68-71 | the function loop appends the function rectangles in order |
| PlantUml.AppendRelationshipLines | src/ontol/plantuml.py:77-78 | the hierarchy loop appends a line per relationship in order |
| PlantUml.AppendFunctionEdgeLines | src/ontol/plantuml.py:74-75 | the inner edge loop appends the lines of one function's edges |
| PlantUml.AppendNextEdgeLines | src/ontol/plantuml.py:73-75 | one turn of the outer edge loop appends the next function's edge lines |
| PlantUml.AppendEdgeLines | src/ontol/plantuml.py:73-75 | the nested edge loop appends every function's edge lines, function by function |
| PlantUml.FirstFault | src/ontol/plantuml.py:49-82 | the first exception of a run of steps: none exactly when no step raises, otherwise the outcome of a step all of whose predecessors raise nothing |
| PlantUml.TermsFault | src/ontol/plantuml.py:64-66 | the term loop raises nothing exactly when every term's attributes are a record; a dictionary lacks `color` |
| PlantUml.FunctionTermsFault | src/ontol/plantuml.py:68-71 | the function-rectangle loop raises nothing exactly when every function's attributes are a record |
| PlantUml.EdgesFault | src/ontol/plantuml.py:73-75 | the edge loop raises nothing exactly when every function has record attributes, a type and an arrow colour, and names only declared input and output terms |
| PlantUml.RelationshipsFault | src/ontol/plantuml.py:77-78 | the hierarchy loop raises nothing exactly when every relationship has record attributes, a colour, a direction and a child |
| PlantUml.DrawFaultNone | src/ontol/plantuml.py:49-82 | `_generate_base` raises nothing exactly on the ontologies the generator can draw |
| PlantUml.DictTermRaises | src/ontol/plantuml.py:85-90 | an ontology with a term whose attributes are the parser's dictionary raises `AttributeError` at the first rectangle |
| PlantUml.GenerateBase | src/ontol/plantuml.py:49-82 | `_generate_base` raises exactly when `DrawFault` names an exception, and then raises that one; otherwise the ontology is drawable and the document is the header, the term lines, the function rectangles, the function edges and the hierarchy lines, then `}` and `@enduml`, joined by line breaks |
| PlantUml.Generate | src/ontol/plantuml.py:27-29 | any kind other than a missing one or "Базовый" gives `None`, whatever the ontology holds; for the base kind, `generate` raises exactly what `_generate_base` raises, and otherwise returns the base document |
| PlantUml.Sextets | src/ontol/plantuml.py:273-277 | the four 6-bit groups hold the 24 bits of the three bytes |
| PlantUml.OctetsOfSextets | src/ontol/plantuml.py:273-277 | regrouping the four groups gives the three bytes back |
| PlantUml.Encode3Bytes | src/ontol/plantuml.py:272-278 | three bytes become four symbols |
| PlantUml.SymbolValueOfAlphabet | src/ontol/plantuml.py:273 | each of the 64 symbols is read back as its position in the alphabet |
| PlantUml.Decode4Encode | src/ontol/plantuml.py:272-278 | decoding four symbols undoes `__encode3bytes` |
| PlantUml.GroupCount | src/ontol/plantuml.py:256 | the number of started groups of three covers the bytes with fewer than three to spare |
| PlantUml.EncodeData | src/ontol/plantuml.py:255-262 | four symbols per started group of three bytes |
| PlantUml.Padding | src/ontol/plantuml.py:257-260 | a short last group is padded with fewer than three zero bytes |
| PlantUml.DecodeEncodeData | src/ontol/plantuml.py:255-262 | decoding the encoded text gives the bytes back, followed by the zero bytes that padded the last group |
| PlantUml.EncodeChunks | src/ontol/plantuml.py:255-262 | the chunk loop produces the encoding `EncodeData` describes |
| Retranslator.EscapeChar | src/ontol/retranslator.py:22 | each character `repr` writes takes at least one character and no line break |
| Retranslator.Escape | src/ontol/retranslator.py:22 | an escaped text holds no line break |
| Retranslator.QuoteFor | src/ontol/retranslator.py:22 | `repr` delimits with a single or a double quote |
| Retranslator.Repr | src/ontol/retranslator.py:22 | a `repr` literal opens and closes with the same quote and holds no line break |
| Retranslator.ReprPlain | src/ontol/retranslator.py:42 | text with no quote, backslash or escaped character is only wrapped in single quotes, as in `'Term one'` |
| Retranslator.ScanBody | src/ontol/retranslator.py:22 | reading escapes up to the closing quote consumes at least that quote |
| Retranslator.ScanLiteral | src/ontol/retranslator.py:22 | reading a literal consumes at least its opening quote |
| Retranslator.ScanRepr | src/ontol/retranslator.py:22 | a `repr` literal is read back to the original text, whatever follows it |
| Retranslator.Present | src/ontol/retranslator.py:74-80 | the set fields, in declaration order; empty exactly when no field is set |
| Retranslator.PresentMember | src/ontol/retranslator.py:74-80 | a name and value are kept exactly when some field carries that name and that value |
| Retranslator.Entries | src/ontol/retranslator.py:80 | one `name: 'value'` entry per pair, in order, each followed by the separator |
| Retranslator.AttributeClause | src/ontol/retranslator.py:69-89 | the clause is empty exactly when no field is set; otherwise it opens with `, { ` and ends with `}` |
| Retranslator.CollectSetFields | src/ontol/retranslator.py:74-80 | the first loop collects `name: 'value' ` for each set field, in order |
| Retranslator.ConcatEntries | src/ontol/retranslator.py:84-85 | the second loop concatenates the collected entries in order |
| Retranslator.TranslateAttributes | src/ontol/retranslator.py:69-89 | `__translate_attributes` returns the clause `AttributeClause` describes |
| Retranslator.TermLine | src/ontol/retranslator.py:41-44 | a term line exists exactly when the term's attributes are a record; raw dictionaries raise |
| Retranslator.ArgumentTexts | src/ontol/retranslator.py:50 | one `name: 'label'` text per argument, in order |
| Retranslator.FunctionLine | src/ontol/retranslator.py:46-58 | a function line exists exactly when the function's attributes are a record |
| Retranslator.HierarchyLine | src/ontol/retranslator.py:60-67 | a hierarchy line exists exactly when the relationship has a child and record attributes |
| Retranslator.JoinArguments | src/ontol/retranslator.py:48-52 | the argument loop writes each argument and `, ` between consecutive ones, none after the last |
| Retranslator.TranslateFunction | src/ontol/retranslator.py:46-58 | `__translate_function` returns the line `FunctionLine` describes |
| Retranslator.EntryLines | src/ontol/retranslator.py:26-37 | a section's lines exist exactly when every entry can be printed, and then there is one line per entry, in order |
| Retranslator.AppendFieldLines | src/ontol/retranslator.py:19-22 | the meta loop appends one line per set field, in order |
| Retranslator.AppendTermLines | src/ontol/retranslator.py:26-27 | the `types:` loop appends the term lines, or raises exactly when some term cannot be printed |
| Retranslator.AppendFunctionLines | src/ontol/retranslator.py:31-32 | the `functions:` loop appends the function lines, or raises exactly when some function cannot be printed |
| Retranslator.AppendHierarchyLines | src/ontol/retranslator.py:36-37 | the `hierarchy:` loop appends the hierarchy lines, or raises exactly when some relationship cannot be printed |
| Retranslator.Translate | src/ontol/retranslator.py:16-39 | `translate` returns the text `Translation` describes, or raises where it does |
| Retranslator.MetaLinesReadBack | src/ontol/retranslator.py:19-22 | the meta block has one line per set field, and each line reads back as that field's name and value, in declaration order |
| Retranslator.MetaLinesAllSet | src/ontol/retranslator.py:19-22 | with every field set, the meta block is version, title, author, description, type and date, in that order |
| Retranslator.ClauseReadBack | src/ontol/retranslator.py:69-89 | an attribute clause reads back as the set fields with their values, in order |
| Retranslator.TermLineReadBack | src/ontol/retranslator.py:41-44 | a term line reads back as the term's name, label, description and clause |
| Retranslator.FunctionLineReadBack | src/ontol/retranslator.py:46-58 | a function line reads back as the name, the label, every argument's term name and label in order, the output's term name and label, and the clause |
| Retranslator.FunctionLineShape | src/ontol/retranslator.py:46-58 | a function line is `name: 'label' (arguments) -> output: 'label'` followed by the clause |
| Retranslator.HierarchyLineReadBack | src/ontol/retranslator.py:60-67 | a hierarchy line reads back as the parent's name, the relationship tag, the first child's name and the clause; later children are dropped |
| Retranslator.TranslationDefined | src/ontol/retranslator.py:16-39 | `translate` succeeds exactly when every term, function and relationship has record attributes and every relationship has a child |
| Retranslator.TermLinesDefined | src/ontol/retranslator.py:26-27 | the term section can be printed exactly when every term has record attributes |
| Retranslator.FunctionLinesDefined | src/ontol/retranslator.py:31-32 | the function section can be printed exactly when every function has record attributes |
| Retranslator.HierarchyLinesDefined | src/ontol/retranslator.py:36-37 | the hierarchy section can be printed exactly when every relationship has a child and record attributes |
| Retranslator.SectionsLayout | src/ontol/retranslator.py:17-37 | the meta lines come first; then, each after a blank line, `types:`, `functions:` and `hierarchy:`, each followed by its entries in order |
| Retranslator.LinesHaveNoBreak | src/ontol/retranslator.py:17-37 | when the names are identifiers, no printed line holds a line break |
| Retranslator.TranslationLines | src/ontol/retranslator.py:39 | when the names are identifiers, splitting the text at line breaks gives back exactly the lines that were joined |
| JsonSerializer.OptionTree | src/ontol/serializer.py:27 | an unset string becomes `null` and a set one its string, so `null` stands for nothing else |
| JsonSerializer.ViewTree | src/ontol/serializer.py:27 | an attribute view becomes an object with the same keys, each value as its string or `null` |
| JsonSerializer.SerializeTerm | src/ontol/serializer.py:26-27 | a term becomes an encodable object with exactly the keys `name`, `label`, `description` and `attributes` |
| JsonSerializer.ViewTreeInjective | src/ontol/serializer.py:27 | two attribute views give the same object exactly when they are equal |
| JsonSerializer.SerializeTermInjective | src/ontol/serializer.py:26-27 | two terms serialize alike exactly when their name, label, description and attribute values agree, whether the attributes are a record or a dictionary |
| JsonSerializer.SerializeMeta | src/ontol/serializer.py:48-49 | metadata becomes an encodable object with exactly the six meta keys, `type` among them |
| JsonSerializer.MetaRoundTrip | src/ontol/serializer.py:48-49 | metadata reads back from its object field for field, unset fields included |
| JsonSerializer.RawFunctionAttributes | src/ontol/serializer.py:44 | a function's attributes are put in unconverted, so `json.dumps` accepts them exactly when they are a raw dictionary |
| JsonSerializer.RawRelationshipAttributes | src/ontol/serializer.py:59 | a relationship's attributes are put in unconverted, so `json.dumps` accepts them exactly when they are a raw dictionary |
| JsonSerializer.SerializeFunctionAsWritten | src/ontol/serializer.py:30-45 | as written, serializing any function raises `TypeError` |
| JsonSerializer.SerializeFunction | src/ontol/serializer.py:30-45 | the corrected function entry is an object with exactly the keys `name`, `label`, `input_types`, `output_type` and `attributes` |
| JsonSerializer.ArgumentsRoundTrip | src/ontol/serializer.py:36-39 | the `input_types` list reads back as each argument's term name and label, in order |
| JsonSerializer.FunctionEntry | src/ontol/serializer.py:33-45 | a corrected function entry keeps the name and label, one `input_types` item per argument in order with its term name and label, and the output's term name and label |
| JsonSerializer.SerializeRelationship | src/ontol/serializer.py:52-60 | a relationship becomes an object with exactly the keys `parent`, `relationship`, `children` and `attributes`, encodable exactly when its attributes are a raw dictionary |
| JsonSerializer.RelationshipEntry | src/ontol/serializer.py:55-60 | the tag text reads back as the relationship type, and the children keep their number and order |
| JsonSerializer.SerializeDocument | src/ontol/serializer.py:11-22 | the document is an object with exactly the keys `terms`, `functions`, `hierarchy` and `meta` |
| JsonSerializer.SerializeDocumentAsWritten | src/ontol/serializer.py:10-23 | as written, `serialize` succeeds exactly when there are no functions, and then gives the corrected document |
| JsonSerializer.Serialize | src/ontol/serializer.py:10-23 | `serialize` on an ontology's current state gives one entry per term, function and relationship, in the ontology's order, and metadata that reads back as the ontology's |
| JsonSerializer.DocumentLists | src/ontol/serializer.py:11-22 | the three lists keep the ontology's lengths and order, entry for entry, and the metadata reads back |
| JsonSerializer.DocumentEncodable | src/ontol/serializer.py:10-23 | `json.dumps` accepts the document exactly when every function's and every relationship's attributes are a raw dictionary, as the parser leaves them |
| JsonSerializer.FunctionEncodable | src/ontol/serializer.py:44 | a function entry is encodable exactly when its attributes are a raw dictionary |
| LinePatterns.SpaceEnd | src/parser.py:93 | `\s*` consumes the longest run of whitespace from its start |
| LinePatterns.WordEnd | src/parser.py:107 | `\w*` consumes the longest run of word characters from its start |
| LinePatterns.FinalClose | src/parser.py:107 | `(.*?)X$` finds a closing character after a run without line feeds that `$` can follow; when it finds none, no such position exists |
| LinePatterns.FirstQuote | src/parser.py:93 | `(.*?)['"]` with nothing after it stops at the first quote, and fails exactly when a line feed comes before every quote |
| LinePatterns.NameAndQuote | src/parser.py:107 | `(\w+):\s*['"]` finds a non-empty name of word characters, its colon and the opening quote |
| LinePatterns.NameAndQuoteOf | src/parser.py:107 | a line holding `name: '` has its name and opening quote found right there |
| LinePatterns.FirstIn | src/parser.py:107 | the lazy search yields the least position that lets the match go on, and none when no position does |
| LinePatterns.FirstPair | src/parser.py:107 | backtracking over two lazy groups yields the least pair in lexicographic order that completes the match, and none when no pair does |
| LinePatterns.FirstPairIs | src/parser.py:107 | a completing pair with no earlier completing pair is the one the backtracking finds |
| LinePatterns.MetaValue | src/parser.py:93 | a matched meta line opens with `key:` and whitespace, and the captured value holds no quote and no line feed |
| LinePatterns.MetaValueOfWritten | src/parser.py:93 | a line `key:`, whitespace, a quoted value without quotes or line feeds, and anything after, yields exactly that value |
| LinePatterns.MetaValueShape | src/parser.py:93 | conversely, a matched line is `key:`, whitespace, a quote, the value, a quote and a rest |
| LinePatterns.DescriptionStart | src/parser.py:107 | `['"],\s*['"]` closes the label with a quote and a comma and opens the description with a quote |
| LinePatterns.AttributeTail | src/parser.py:107 | the optional `(,\s*\{(.*?)\})?$` group is skipped exactly when the line ends there, and what it captures holds no line feed |
| LinePatterns.TypeSearch | src/parser.py:107 | the type pattern's backtracking yields the shortest label, then the shortest description, that lets the rest of the line match, and none when no choice does |
| LinePatterns.TypeSearchFinds | src/parser.py:107 | a match where no label could close earlier and no quote could close the description earlier is the one found |
| LinePatterns.MatchType | src/parser.py:106-108 | a type match's name is a word at the start of the line, followed by a colon; the label and description hold no line feed |
| LinePatterns.MatchTypeOfWritten | src/parser.py:106-108 | a line written `name: 'label', 'description'` with an optional `, {...}` block reads back as exactly those parts |
| LinePatterns.ParametersStart | src/parser.py:143 | `['"]\s*\(` closes the label with a quote and opens the parameter list with `(` |
| LinePatterns.OutputTail | src/parser.py:143 | `\)\s*->\s*(\w+):\s*['"](.*?)['"]$` finds the closing `)`, the output name as a word and an output label without line feeds |
| LinePatterns.FunctionSearch | src/parser.py:143 | the function pattern's backtracking yields the shortest label, then the shortest parameter text, that lets the rest of the line match, and none when no choice does |
| LinePatterns.FunctionSearchFinds | src/parser.py:143 | a match where no label could close earlier and no `)` could close the parameters earlier is the one found |
| LinePatterns.MatchFunction | src/parser.py:142-145 | a function match's name is a word at the start of the line, followed by a colon; the output type is a word; the label, parameters and output label hold no line feed |
| LinePatterns.MatchFunctionOfWritten | src/parser.py:142-145 | a line written `name: 'label' (parameters) -> out: 'output label'` reads back as exactly those parts |
| LinePatterns.MatchParameter | src/parser.py:168 | a matched parameter has a word for its name and a label without line feeds |
| LinePatterns.MatchParameterOfWritten | src/parser.py:168 | a parameter written `name: 'label'` reads back as itself |
| LineParser.DiagnosticLines | src/parser.py:80-83 | a diagnostic cut at its line feeds is the location `File "<path>", line <n>`, the trimmed line indented by four spaces, and the message line |
| LineParser.MetaEntry | src/parser.py:90-103 | a matched meta line yields its quoted value, with one `Meta value is empty` warning exactly when the value is empty; a line that does not match raises `SyntaxError: Invalid <key> format` with no warning |
| LineParser.MetaEntryOfWritten | src/parser.py:90-103 | `key: 'value'` yields the value, warned about exactly when it is empty |
| LineParser.AttributeOf | src/parser.py:134-135 | a piece of an attribute block raises the unpacking `ValueError` exactly when it holds no colon |
| LineParser.StoreAll | src/parser.py:133-135 | the attribute loop raises only an exception one of its pieces raised |
| LineParser.AttributesOf | src/parser.py:128-137 | an empty block text gives the empty dictionary |
| LineParser.StoreAllFails | src/parser.py:133-135 | the attribute loop raises exactly when some piece raises |
| LineParser.StoreAllValues | src/parser.py:133-135 | a stored dictionary has exactly the keys of its pieces, each with the value of the last piece that names it |
| LineParser.AttributesWithoutColon | src/parser.py:131-135 | a non-empty block without any colon, such as `{ }`, raises the unpacking `ValueError` instead of giving an empty dictionary |
| LineParser.AttributesOfWritten | src/parser.py:128-137 | a block written `key: 'value', ...` reads back as the dictionary of those pairs, the last of two equal keys winning |
| LineParser.Matched | src/parser.py:166-168 | each comma-separated piece is trimmed and matched against the parameter pattern, in order |
| LineParser.Somes | src/parser.py:170-173 | the parameter loop keeps only pieces that matched, in order, and never more than there are pieces |
| LineParser.ParametersOf | src/parser.py:163-175 | every parameter kept has a word for its name and a label without line feeds |
| LineParser.SomesAll | src/parser.py:166-175 | when every piece matches, no parameter is dropped |
| LineParser.SomesNone | src/parser.py:166-175 | when no piece matches, the parameter list is empty |
| LineParser.ParametersOfEmpty | src/parser.py:163-175 | an empty parameter text gives no parameters |
| LineParser.ParametersOfWritten | src/parser.py:163-175 | a parameter list written `name: 'label', ...` reads back as exactly those parameters, in order |
| LineParser.TypeWarnings | src/parser.py:117-122 | a type line warns once for an empty label and once for an empty description |
| LineParser.TypeEntry | src/parser.py:105-126 | a line the type pattern rejects raises `SyntaxError: Invalid type format` with no warning; a matched line gives its warnings and, unless its block raises, the term with the matched name, label and description |
| LineParser.TypeEntryOfWritten | src/parser.py:105-126 | a type line written `name: 'label', 'description'`, with or without a block `, {key: 'value', ...}`, reads back as that term, with one warning per empty text |
| LineParser.TypeEntryWithoutColon | src/parser.py:124 | a type line whose block holds no colon raises the unpacking `ValueError` after its warnings |
| LineParser.CommentCut | src/parser.py:140 | the line the function pattern sees holds no `#` |
| LineParser.FunctionWarnings | src/parser.py:156-159 | a function line warns once for an empty label and once for an empty output label |
| LineParser.FunctionEntry | src/parser.py:139-161 | a comment-free line the function pattern rejects raises `SyntaxError: Invalid function format` with no warning; a matched one gives the function with the matched name, label, parameters read by `_parse_parameters` and output, and its warnings |
| LineParser.FunctionEntryOfWritten | src/parser.py:139-161 | a function line written `name: 'label' (parameters) -> out: 'label'`, with or without a ` #comment`, reads back as that function |
| LineParser.CutComment | src/parser.py:140 | the cut drops a ` #comment` from a comment-free text |
| LineParser.RelationshipEntry | src/parser.py:177-183 | a hierarchy line gives a relationship exactly when it has three whitespace-separated words, which are its parent, type and child; otherwise `SyntaxError: Invalid hierarchy format` |
| LineParser.RelationshipOfWritten | src/parser.py:177-183 | three words written with single spaces read back as parent, relationship and child |
| LineParser.RelationshipOfTwoWords | src/parser.py:180-181 | two words, such as `a b`, are not a relationship |
| LineParser.HeaderOf | src/parser.py:57-65 | a line is a block header exactly when it starts with `types:`, `functions:` or `hierarchy:` |
| LineParser.MetaKeyOf | src/parser.py:36-55 | a line is a metadata line exactly when it opens one of the keys `version`, `title`, `author`, `desc` or `type` with a colon and whitespace |
| LineParser.SetMetaField | src/parser.py:36-55 | a metadata line sets the field its key fills (`title` fills `name`, `desc` fills `description`) and no other, and never the creation date |
| LineParser.StepLine | src/parser.py:28-83 | one line only appends to the entries and warnings and keeps the creation date; a blank or `#` line changes nothing |
| LineParser.EntryStep | src/parser.py:67-78 | an entry line adds exactly one entry and keeps the block and metadata; before any header it raises `SyntaxError: Unexpected line` |
| LineParser.Run | src/parser.py:28-83 | the line loop only appends to the entries and warnings and keeps the creation date, and an exception keeps the warnings given before it |
| LineParser.RunStops | src/parser.py:80-83 | once a line has raised, later lines change nothing |
| LineParser.RunSkips | src/parser.py:32-33 | blank lines and `#` lines leave the outcome as it was |
| LineParser.RunKeepsField | src/parser.py:19-55 | a metadata field no line opens keeps the value it started with |
| LineParser.ParseDefaults | src/parser.py:19-26 | after `parse` the creation date is `today`, and a metadata field is unset unless some line opens its key |
| LineParser.RunWithoutHeader | src/parser.py:18 | until a header line the block stays unset and no entry is added |
| LineParser.UnexpectedBeforeHeader | src/parser.py:77-83 | an entry line before any header makes `parse` raise `SyntaxError: Unexpected line` at that line's number, keeping the earlier warnings |
| LineParser.NameLed | src/parser.py:36-65 | a line led by a name that is not a reserved key, followed by a non-word character, is neither metadata nor a header |
| LineParser.StepOfEntry | src/parser.py:67-75 | an entry line is handled as an entry of the current block |
| LineParser.TypeLineStep | src/parser.py:67-69 | in the types block, a type line whose name is not reserved appends its term and its warnings |
| LineParser.FunctionLineStep | src/parser.py:70-72 | in the functions block, a function line whose name is not reserved appends its function and its warnings |
| LineParser.RelationshipLineStep | src/parser.py:73-75 | in the hierarchy block, three words written with single spaces append one relationship and no warning |
| LineParser.TypeNamedType | src/parser.py:52-55 | in any block, a would-be type named `type` is read as the `type` metadata: its label becomes the ontology's type and no term is added |
| LineParser.Parser.constructor | src/parser.py:9-10 | a fresh parser has no warnings |
| LineParser.Parser.AddWarning | src/parser.py:185-189 | appends the warning text for the line |
| LineParser.Parser.ParseMetaLine | src/parser.py:90-103 | returns what `MetaEntry` yields and appends its warnings |
| LineParser.Parser.ParseAttributes | src/parser.py:128-137 | returns the dictionary or exception `AttributesOf` gives |
| LineParser.Parser.ParseParameters | src/parser.py:163-175 | returns the parameters `ParametersOf` gives |
| LineParser.Parser.ParseType | src/parser.py:105-126 | returns what `TypeEntry` yields and appends its warnings |
| LineParser.Parser.ParseFunction | src/parser.py:139-161 | returns what `FunctionEntry` yields and appends its warnings |
| LineParser.Parser.WarnLabels | src/parser.py:156-159 | appends the two label warnings `FunctionWarnings` gives, in order |
| LineParser.Parser.ParseLine | src/parser.py:28-83 | one pass of the loop has the effect `StepLine` gives on the block, metadata, ontology and warnings |
| LineParser.Parser.ParseEntry | src/parser.py:67-78 | the entry branches have the effect `EntryStep` gives |
| LineParser.Parser.RunLines | src/parser.py:28-83 | the loop ends in the state or exception `Run` gives, the ontology holding the entries |
| LineParser.Parser.RunLine | src/parser.py:28-83 | one turn of the loop takes the state `Run` reached one line further |
| LineParser.Parser.Parse | src/parser.py:12-88 | `parse` returns a fresh ontology holding the entries and metadata `ParseSpec` gives, or raises the text of its exception, with the warnings given before it |
| SplitParser.RestFrom | parser/parser.py:34 | the rest of the words is absent exactly when there are none; joined, it splits back into exactly those words |
| SplitParser.TypeList | parser/parser.py:40-41 | a type list has at least one name, none holding a comma, and the names joined by commas give back the word without its outer parentheses |
| SplitParser.ParseType | parser/parser.py:31-35 | a type line raises `IndexError` exactly when it has fewer than two words; otherwise the second word names the type, and the description is absent exactly when there are two words, else it holds the words after the second |
| SplitParser.ParseFunction | parser/parser.py:37-44 | a function line raises `IndexError` exactly when it has fewer than four words; otherwise both type lists are non-empty and comma-free, a label is present exactly when there are more than four words, and a description exactly when there are more than five |
| SplitParser.ParseMeta | parser/parser.py:46-53 | a meta line raises `IndexError` exactly when it has fewer than four words; otherwise version, name and author are set, the description holds the words after the fourth (empty when none), and the creation date is always 2025-02-08 |
| SplitParser.AddTypeOf | parser/parser.py:17-18 | a type line appends exactly one term and changes nothing else |
| SplitParser.AddFunctionOf | parser/parser.py:20-21 | a function line appends exactly one function and changes nothing else |
| SplitParser.SetMetaOf | parser/parser.py:23-24 | a meta line sets the metadata only when none is set and changes nothing else; a well-formed meta line on an ontology that has metadata raises `ValueError` |
| SplitParser.Step | parser/parser.py:12-27 | one line only appends, adds at most one entry, and never changes metadata once set |
| SplitParser.StepLine | parser/parser.py:14-27 | the dispatch on the trimmed line only appends, adds at most one entry, and never changes metadata once set |
| SplitParser.Run | parser/parser.py:12-29 | the loop only appends, adds at most one entry per line, and never changes metadata once set |
| SplitParser.Parse | parser/parser.py:7-29 | `parse` returns a fresh ontology holding the state `ParseSpec` gives, or raises its exception |
| SplitParser.ParseLine | parser/parser.py:12-27 | one pass of the loop changes the ontology as `Step` gives, or reports its exception |
| SplitParser.ParseStripped | parser/parser.py:14-27 | the dispatch on the trimmed line changes the ontology as `StepLine` gives |
| SplitParser.AddTypeLine | parser/parser.py:16-18 | a `type` line changes the ontology as `AddTypeOf` gives |
| SplitParser.AddFunctionLine | parser/parser.py:19-21 | a `function` line changes the ontology as `AddFunctionOf` gives |
| SplitParser.SetMetaLine | parser/parser.py:22-24 | a `meta` line changes the ontology as `SetMetaOf` gives |
| SplitParser.RunStops | parser/parser.py:12-27 | once a line has raised, later lines change nothing |
| SplitParser.RunConcat | parser/parser.py:12-27 | reading two runs of lines is reading the first, then the second from where the first left off |
| SplitParser.StepSkips | parser/parser.py:14-15 | a blank or comment line leaves the ontology as it was |
| SplitParser.StepRelationship | parser/parser.py:25-27 | any other non-empty line becomes one relationship holding the trimmed line |
| SplitParser.RunSkips | parser/parser.py:12-27 | blank and comment lines leave the ontology as it was |
| SplitParser.Expressions | parser/parser.py:26 | one relationship per line, holding the trimmed line, in order |
| SplitParser.RunRelationships | parser/parser.py:25-27 | lines that are neither blank, comments nor led by a keyword become relationships, one per line in order, and nothing else changes |
| SplitParser.TypeListOfWritten | parser/parser.py:40-41 | a written list `(a,b,c)` reads back as its names |
| SplitParser.EmptyListIsOneName | parser/parser.py:40-41 | `()` reads as a list holding one empty name |
| SplitParser.ParseTypeOfWritten | parser/parser.py:31-35 | a written type line reads back as the type it was written from, whatever word starting with `type` leads it |
| SplitParser.ParseFunctionOfWritten | parser/parser.py:37-44 | a written function line reads back as the function it was written from |
| SplitParser.ParseMetaOfWritten | parser/parser.py:46-53 | a written meta line reads back with its description and the fixed creation date |
| SplitParser.StepTypeLine | parser/parser.py:16-18 | a written type line appends its term and changes nothing else |
| SplitParser.StepFunctionLine | parser/parser.py:19-21 | a written function line appends its function and changes nothing else |
| SplitParser.StepMetaLine | parser/parser.py:22-24 | a written meta line sets the metadata when none is set, and raises `ValueError` otherwise |
| SplitParser.StepSecondMeta | parser/parser.py:22-24 | a meta line of four or more words on an ontology with metadata raises `ValueError` |
| SplitParser.SecondMetaRaises | parser/parser.py:22-24 | once metadata is set, a later meta line ends the parse with `ValueError` |
| SplitParser.TypesHeaderRaises | parser/parser.py:16-18 | the header `types:` of the other format is read as a nameless type line and raises `IndexError` |
| SplitParser.FunctionsHeaderRaises | parser/parser.py:19-21 | the header `functions:` is read as a nameless function line and raises `IndexError` |
| SplitSerializer.Trees | parser/serializer.py:8-10 | one entry per list item, in list order |
| SplitSerializer.Decode | parser/serializer.py:8-10 | a list read back has one item per entry |
| SplitSerializer.DecodeTrees | parser/serializer.py:8-10 | a list written entry by entry reads back whole through a reader that undoes the entry writer |
| SplitSerializer.StringsRoundTrip | parser/serializer.py:21-22 | a list of type names reads back as itself |
| SplitSerializer.TermTree | parser/serializer.py:15-16 | a term becomes an encodable object with exactly the keys `name` and `description` |
| SplitSerializer.TermRoundTrip | parser/serializer.py:15-16 | a term reads back from its object, a missing description as `null` included |
| SplitSerializer.FunctionTree | parser/serializer.py:18-25 | a function becomes an encodable object with exactly the keys `name`, `input_types`, `output_types`, `label` and `description` |
| SplitSerializer.FunctionRoundTrip | parser/serializer.py:18-25 | a function reads back from its object |
| SplitSerializer.MetaTree | parser/serializer.py:27-34 | metadata becomes an encodable object with exactly the keys `version`, `name`, `author`, `description` and `date_created` |
| SplitSerializer.MetaRoundTrip | parser/serializer.py:27-34 | metadata reads back from its object |
| SplitSerializer.MetaOrNull | parser/serializer.py:11 | `meta` is `null` exactly when no metadata is set |
| SplitSerializer.Document | parser/serializer.py:7-12 | the document has exactly the keys `terms`, `functions`, `hierarchy` and `meta` |
| SplitSerializer.DocumentRoundTrip | parser/serializer.py:6-13 | the document loses nothing: the terms, functions and expressions come back in order, and the metadata, or its absence, as it was |
| SplitSerializer.TermsRoundTrip | parser/serializer.py:8 | the `terms` list reads back as the types, in order |
| SplitSerializer.FunctionsRoundTrip | parser/serializer.py:9 | the `functions` list reads back as the functions, in order |
| SplitSerializer.DocumentEncodable | parser/serializer.py:13 | `json.dumps` accepts every document |
| SplitPlantUml.NoteId | parser/plantuml_generator.py:37 | a note's number is `hash % 10000`, never negative and below 10000 |
| SplitPlantUml.Header | parser/plantuml_generator.py:7-10 | the header is two lines, three when metadata is set |
| SplitPlantUml.TypeBlocks | parser/plantuml_generator.py:12-13 | one class block per type, in order |
| SplitPlantUml.FunctionBlocks | parser/plantuml_generator.py:15-16 | one function block per function, in order |
| SplitPlantUml.NoteLines | parser/plantuml_generator.py:18-19 | one note per expression, in order |
| SplitPlantUml.Generate | parser/plantuml_generator.py:6-22 | `generate` joins the document lines with line breaks |
| SplitPlantUml.AppendTypeBlocks | parser/plantuml_generator.py:12-13 | the type loop appends a block per type, in order |
| SplitPlantUml.AppendFunctionBlocks | parser/plantuml_generator.py:15-16 | the function loop appends a block per function, in order |
| SplitPlantUml.AppendNoteLines | parser/plantuml_generator.py:18-19 | the hierarchy loop appends a note per expression, in order |
| SplitPlantUml.DocumentLayout | parser/plantuml_generator.py:6-22 | the header comes first, then a block per type and per function and a note per expression, each list in its own order, then `@enduml` |
| SplitPlantUml.HeaderLines | parser/plantuml_generator.py:7-10 | the header is `@startuml`, the skin parameter, then `title <name> by <author>` when there is metadata |
| SplitPlantUml.TitleIffMeta | parser/plantuml_generator.py:9-10 | a document line starts with `title ` exactly when it is the third line and metadata is set |
| SplitPlantUml.LineIsTitle | parser/plantuml_generator.py:9-10 | one given line starts with `title ` exactly when it is the title line |
| SplitPlantUml.DocumentFraming | parser/plantuml_generator.py:7-22 | the document opens with `@startuml` on its own line and ends with `@enduml` on its own line |
| SplitPlantUml.TypeBlockLines | parser/plantuml_generator.py:24-25 | a type block is three lines: the class head, the description, and the closing brace |
| SplitPlantUml.FunctionBlockLines | parser/plantuml_generator.py:27-34 | a function block is four lines: the `<<Function>>` class head, the signature `+name(inputs) : (outputs)`, the description, and the closing brace |
| SplitPlantUml.SignatureInputs | parser/plantuml_generator.py:28 | the signature lists each input type once, in order |

## Left out

- The `sly` machinery (LALR table generation, `expected_shift_reduce = 22`, conflict resolution): the grammar is a hand-written recogniser that follows the reduction order and the one-token lookahead at which `sly` runs each action.
- The ANSI colour codes in diagnostics (src/ontol/parser.py:110-124, src/parser.py:82 and 188): they are cosmetic, and the model keeps the plain prefixes `error` and `warning`.
- `datetime.today()`: the current date is the `today` parameter of the parse.
- Python's `hash()` (src/ontol/plantuml.py:244-245, parser/plantuml_generator.py:37): it is salted per process. Where the model needs it, it is a parameter.
- The text produced by `json.dumps` (indentation, escaping): the serializers stop at the value tree `Tree`.
- The I/O in `processes_puml_to_png`, that is, zlib compression, the header and trailer slice, the HTTP request and the file write: only the 6-bit encoding of a given byte sequence is modelled.
- The command-line front ends src/cli.py, src/ontol/cli.py and parser/cli.py are not part of this model. They do argparse, file I/O, directory walks and polling, and call `Ontology.from_figure`, `count_edges` and `without_functions`, which the shown src/ontol/oast.py does not define.
- src/ontol/ai.py (a language-model chain) and deploy/app.py (a web UI, subprocesses, zip files) are not part of this model.
- `_generate_type`, `_generate_function` and `_generate_relationship` in src/ontol/plantuml.py:228-246: nothing calls them, and the last depends on `hash()`. The commented-out generator at src/ontol/plantuml.py:31-46 is also left out.
- The `__repr__` methods of the syntax trees: they are cosmetic. The broken `__repr__` at src/oast.py:29-30 names fields that do not exist.
- A round trip from the retranslator back through the parser is not claimed. The retranslator writes `description:` where the lexer only knows `desc:`, and it writes several attributes without commas between them.
- The failing references in src/ontol/plantuml.py (the misspelt `RelationshipAttrubutes` import at line 14, `RelationshipType.DEPENDS` and `REALIZATION` at lines 103 and 123, `left_char` and `right_char` at lines 140-147): as written, importing the module fails. The model maps each name to the member of src/ontol/oast.py it evidently stands for, so no member models that failure.
- PlantUml.GenerateBase: an exception is given by its class alone (`PlantUml.Fault`). The message Python composes, which names the missing attribute or key, is not modelled.
- Retranslator.Translate: an exception is reported as `None`, without its class or message. The dictionary `AttributeError` and the childless `IndexError` look the same.
- Retranslator.Repr: characters above U+00FF are written as they are. Python writes the non-printable ones as `\uXXXX` or `\UXXXXXXXX`, and which ones those are depends on the Unicode database.
- LinePatterns.MatchType: `\w` is modelled as the ASCII letters, the digits, `_` and Cyrillic (U+0400 to U+04FF without U+0482 to U+0489). A name such as `Café` is rejected here, though Python's Unicode `\w` accepts it.
- LinePatterns.MatchFunction: the same restriction of `\w` to ASCII and Cyrillic word characters.
- LinePatterns.MatchParameter: the same restriction of `\w` to ASCII and Cyrillic word characters.
- LinePatterns.NameAndQuote: the same restriction of `\w` to ASCII and Cyrillic word characters.
- OntolGrammar.TypeLine: its own contract only bounds the position it reaches. The shape of a recognised line is stated by OntolGrammar.TypeLineShape.
- OntolGrammar.FunctionLine: its own contract only bounds the position it reaches. The shape is stated by OntolGrammar.FunctionLineShape.
- OntolGrammar.FunctionTail: its own contract only bounds the position it reaches. The shape is stated by OntolGrammar.FunctionLineShape.
- OntolGrammar.HierarchyLine: its own contract only bounds the position it reaches. The shape is stated by OntolGrammar.HierarchyLineShape.
- OntolGrammar.Entries: its own contract only bounds the position it reaches. No lemma states that its events are those of its lines in order; the lines' own events are stated by OntolGrammar.TypeLineShape, OntolGrammar.FunctionLineShape and OntolGrammar.HierarchyLineShape.
- OntolGrammar.BlockBody: its own contract only bounds the position it reaches, as for OntolGrammar.Entries.

## Findings

| source | as written | input that shows it | evidently intended | confidence | as-written member | corrected member |
|---|---|---|---|---|---|---|
| src/ontol/parser.py:132-136 | the `program` action reads and writes `meta.date_created`, but `Meta` declares only `date` (src/ontol/oast.py:17) | any text without a `date:` statement, the empty file among them: reading the undeclared attribute raises `AttributeError` | fill the declared `date` field with today's date when it is missing or empty | not executed | OntolParser.UndatedTextFailsAsWritten | OntolParser.EmptyTextParses |
| src/ontol/parser.py:116-121 | the caret line is one space, the four-space padding, then `column - 1` spaces | a token at the very start of its line (column 0): `" " * -1` is empty, so the caret lands one column right of the token | the caret under the token's first character for every column | not executed | OntolParser.CaretAsWrittenAgrees | OntolParser.Caret |
| src/ontol/serializer.py:37-41 | a function's arguments and output are read as `t['name']` and `t['label']`, but they are `FunctionArgument` dataclasses (src/ontol/oast.py:98-101) | any ontology with at least one function: subscripting the dataclass raises `TypeError` | read the argument's `term.name` and `label` attributes | not executed | JsonSerializer.SerializeDocumentAsWritten | JsonSerializer.FunctionEntry |

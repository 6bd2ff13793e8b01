/** The Ontol lexer (src/ontol/parser.py, class `Lexer`). At each position, spaces and
    tabs are skipped; otherwise the first rule that matches wins, in declaration order:
    the nine keywords, STRING, IDENTIFIER, the punctuation, a `#` comment (no token),
    then a run of newlines (one NEWLINE token that advances the line count by the run's
    length). Any other character stops the lexer with "Illegal character". */
module OntolLexer {
  import opened Wrappers
  import opened Text

  datatype TokenKind =
    | TypesBlock | FunctionsBlock | HierarchyBlock
    | MetaVersion | MetaTitle | MetaAuthor | MetaDesc | MetaDate | MetaType
    | StringLit | Identifier
    | LBrace | RBrace | Colon | Comma | Arrow | LParen | RParen
    | Newline
  {
    /** The token type's name, as syntax errors print it. */
    function Name(): string {
      match this
      case TypesBlock => "TYPES_BLOCK"
      case FunctionsBlock => "FUNCTIONS_BLOCK"
      case HierarchyBlock => "HIERARCHY_BLOCK"
      case MetaVersion => "META_VERSION"
      case MetaTitle => "META_TITLE"
      case MetaAuthor => "META_AUTHOR"
      case MetaDesc => "META_DESC"
      case MetaDate => "META_DATE"
      case MetaType => "META_TYPE"
      case StringLit => "STRING"
      case Identifier => "IDENTIFIER"
      case LBrace => "LBRACE"
      case RBrace => "RBRACE"
      case Colon => "COLON"
      case Comma => "COMMA"
      case Arrow => "ARROW"
      case LParen => "LPAREN"
      case RParen => "RPAREN"
      case Newline => "NEWLINE"
    }

    predicate IsKeyword() {
      TypesBlock? || FunctionsBlock? || HierarchyBlock? || MetaVersion? || MetaTitle?
      || MetaAuthor? || MetaDesc? || MetaDate? || MetaType?
    }

    predicate IsPunctuation() {
      LBrace? || RBrace? || Colon? || Comma? || Arrow? || LParen? || RParen?
    }
  }

  /** The text a keyword or punctuation token always matches. */
  function FixedText(k: TokenKind): string
    requires k.IsKeyword() || k.IsPunctuation()
  {
    match k
    case TypesBlock => "types:"
    case FunctionsBlock => "functions:"
    case HierarchyBlock => "hierarchy:"
    case MetaVersion => "version:"
    case MetaTitle => "title:"
    case MetaAuthor => "author:"
    case MetaDesc => "desc:"
    case MetaDate => "date:"
    case MetaType => "type:"
    case LBrace => "{"
    case RBrace => "}"
    case Colon => ":"
    case Comma => ","
    case Arrow => "->"
    case LParen => "("
    case RParen => ")"
  }

  /** A token: its type, its value (a STRING's value has its quotes removed), the line
      number the lexer held when it was produced, and its character offset. */
  datatype Token = Token(kind: TokenKind, value: string, line: nat, offset: nat)

  /** What the lexer yields: the tokens it produced and, when it stopped at an illegal
      character, that character. The parser pulls tokens lazily, so the error surfaces
      only when the parser asks for the token after the last one. */
  datatype Lexed = Lexed(tokens: seq<Token>, error: Option<char>)

  predicate StartsAt(text: string, pos: nat, w: string) {
    pos + |w| <= |text| && text[pos..pos + |w|] == w
  }

  predicate IsQuote(c: char) {
    c == '\'' || c == '"'
  }

  predicate IsIdentStart(c: char) {
    IsAsciiLetter(c) || c == '_'
  }

  predicate IsIdentChar(c: char) {
    IsAsciiLetter(c) || IsDigit(c) || c == '_'
  }

  /** The end of the run of characters satisfying `p` that starts at `from`. */
  function RunEnd(text: string, from: nat, p: char -> bool): (j: nat)
    requires from <= |text|
    ensures from <= j <= |text|
    ensures forall k :: from <= k < j ==> p(text[k])
    ensures j < |text| ==> !p(text[j])
    decreases |text| - from
  {
    if from == |text| || !p(text[from]) then from else RunEnd(text, from + 1, p)
  }

  /** The keyword whose text starts at `pos`, if any. No keyword is a prefix of another
      (each ends in its only colon), so at most one matches. */
  function KeywordAt(text: string, pos: nat): (r: Option<TokenKind>)
    ensures r.Some? ==> r.value.IsKeyword() && StartsAt(text, pos, FixedText(r.value))
    ensures r.None? ==> forall k: TokenKind :: k.IsKeyword() ==> !StartsAt(text, pos, FixedText(k))
  {
    if StartsAt(text, pos, "types:") then Some(TypesBlock)
    else if StartsAt(text, pos, "functions:") then Some(FunctionsBlock)
    else if StartsAt(text, pos, "hierarchy:") then Some(HierarchyBlock)
    else if StartsAt(text, pos, "version:") then Some(MetaVersion)
    else if StartsAt(text, pos, "title:") then Some(MetaTitle)
    else if StartsAt(text, pos, "author:") then Some(MetaAuthor)
    else if StartsAt(text, pos, "desc:") then Some(MetaDesc)
    else if StartsAt(text, pos, "date:") then Some(MetaDate)
    else if StartsAt(text, pos, "type:") then Some(MetaType)
    else None
  }

  /** The one-character punctuation token `c` stands for, if any. */
  function PunctuationOf(c: char): (r: Option<TokenKind>)
    ensures r.Some? ==> r.value.IsPunctuation() && FixedText(r.value) == [c]
    ensures r.None? ==> forall k: TokenKind :: k.IsPunctuation() && !k.Arrow? ==> FixedText(k) != [c]
  {
    if c == '{' then Some(LBrace)
    else if c == '}' then Some(RBrace)
    else if c == ':' then Some(Colon)
    else if c == ',' then Some(Comma)
    else if c == '(' then Some(LParen)
    else if c == ')' then Some(RParen)
    else None
  }

  /** The number of characters of the text a token covers. */
  function Width(t: Token): nat {
    if t.kind == StringLit then |t.value| + 2 else |t.value|
  }

  function End(t: Token): nat {
    t.offset + Width(t)
  }

  /** The value is exactly what lies between a quote and the next same quote. */
  predicate StringWellFormed(text: string, t: Token)
    requires t.kind == StringLit && t.offset < End(t) <= |text|
  {
    && IsQuote(text[t.offset])
    && text[End(t) - 1] == text[t.offset]
    && text[t.offset + 1..End(t) - 1] == t.value
    && text[t.offset] !in t.value
  }

  /** The longest run of identifier characters at the offset, and no keyword starts there. */
  predicate IdentifierWellFormed(text: string, t: Token)
    requires t.offset < End(t) <= |text|
  {
    && text[t.offset..End(t)] == t.value
    && IsIdentStart(t.value[0])
    && (forall k :: 0 <= k < |t.value| ==> IsIdentChar(t.value[k]))
    && (End(t) == |text| || !IsIdentChar(text[End(t)]))
    && KeywordAt(text, t.offset).None?
  }

  /** The longest run of newlines at the offset. */
  predicate NewlineWellFormed(text: string, t: Token)
    requires t.offset < End(t) <= |text|
  {
    && text[t.offset..End(t)] == t.value
    && (forall k :: 0 <= k < |t.value| ==> t.value[k] == '\n')
    && (End(t) == |text| || text[End(t)] != '\n')
  }

  /** What the text says about a token produced at its offset. */
  predicate WellFormed(text: string, t: Token) {
    && t.offset < End(t) <= |text|
    && (t.kind == StringLit ==> StringWellFormed(text, t))
    && (t.kind == Identifier ==> IdentifierWellFormed(text, t))
    && (t.kind == Newline ==> NewlineWellFormed(text, t))
    && ((t.kind.IsKeyword() || t.kind.IsPunctuation()) ==>
          text[t.offset..End(t)] == t.value && t.value == FixedText(t.kind))
  }

  /** One step of the lexer at `pos`. */
  datatype Step = Emit(token: Token, next: nat, nextLine: nat) | Skip(next: nat) | Illegal(ch: char)

  function LexString(text: string, pos: nat, line: nat, close: nat): (t: Token)
    requires pos < close < |text| && IsQuote(text[pos]) && text[close] == text[pos]
    requires forall k :: pos + 1 <= k < close ==> text[k] != text[pos]
    ensures t.kind == StringLit && t.offset == pos && t.line == line && End(t) == close + 1
    ensures WellFormed(text, t)
  {
    var t := Token(StringLit, text[pos + 1..close], line, pos);
    assert forall k :: 0 <= k < |t.value| ==> t.value[k] == text[pos + 1 + k];
    t
  }

  function LexIdentifier(text: string, pos: nat, line: nat): (t: Token)
    requires pos < |text| && IsIdentStart(text[pos]) && KeywordAt(text, pos).None?
    ensures t.kind == Identifier && t.offset == pos && t.line == line
    ensures WellFormed(text, t)
  {
    var j := RunEnd(text, pos + 1, IsIdentChar);
    Token(Identifier, text[pos..j], line, pos)
  }

  function LexNewline(text: string, pos: nat, line: nat): (t: Token)
    requires pos < |text| && text[pos] == '\n'
    ensures t.kind == Newline && t.offset == pos && t.line == line
    ensures WellFormed(text, t)
  {
    var j := RunEnd(text, pos + 1, x => x == '\n');
    Token(Newline, text[pos..j], line, pos)
  }

  function LexFixed(text: string, pos: nat, line: nat, k: TokenKind): (t: Token)
    requires k.IsKeyword() || k.IsPunctuation()
    requires StartsAt(text, pos, FixedText(k))
    ensures t.kind == k && t.offset == pos && t.line == line
    ensures WellFormed(text, t)
  {
    Token(k, FixedText(k), line, pos)
  }

  function NextStep(text: string, pos: nat, line: nat): (s: Step)
    requires pos < |text|
    ensures s.Emit? ==> && s.token.offset == pos && s.token.line == line && End(s.token) == s.next
                        && s.nextLine == line + Advance(s.token) && WellFormed(text, s.token)
    ensures s.Skip? ==> (text[pos] in {' ', '\t'} && s.next == pos + 1)
                        || (text[pos] == '#' && s.next == RunEnd(text, pos + 1, x => x != '\n'))
    ensures s.Illegal? ==> s.ch == text[pos] && IllegalAt(text, pos)
  {
    var c := text[pos];
    if c == ' ' || c == '\t' then Skip(pos + 1)
    else match KeywordAt(text, pos)
      case Some(k) => var t := LexFixed(text, pos, line, k); Emit(t, End(t), line)
      case None =>
        var close := RunEnd(text, pos + 1, x => x != c);
        if IsQuote(c) && close < |text| then
          var t := LexString(text, pos, line, close); Emit(t, End(t), line)
        else if IsIdentStart(c) then
          var t := LexIdentifier(text, pos, line); Emit(t, End(t), line)
        else if PunctuationOf(c).Some? then
          var t := LexFixed(text, pos, line, PunctuationOf(c).value); Emit(t, End(t), line)
        else if c == '-' && pos + 1 < |text| && text[pos + 1] == '>' then
          assert text[pos..pos + 2] == "->";
          var t := LexFixed(text, pos, line, Arrow); Emit(t, End(t), line)
        else if c == '#' then
          Skip(RunEnd(text, pos + 1, x => x != '\n'))
        else if c == '\n' then
          var t := LexNewline(text, pos, line); Emit(t, End(t), line + |t.value|)
        else
          Illegal(c)
  }

  /** Text between tokens: spaces and tabs, then possibly a comment running to the end
      of its line. */
  predicate Gap(s: string) {
    |s| == 0 || ((s[0] == ' ' || s[0] == '\t') && Gap(s[1..])) || (s[0] == '#' && '\n' !in s)
  }

  /** No rule matches at `p`. */
  predicate IllegalAt(text: string, p: nat)
    requires p < |text|
  {
    var c := text[p];
    && c !in {' ', '\t', '#', '\n', '{', '}', ':', ',', '(', ')'}
    && !IsIdentStart(c)
    && !(c == '-' && p + 1 < |text| && text[p + 1] == '>')
    && (IsQuote(c) ==> forall k :: p < k < |text| ==> text[k] != c)
  }

  /** The lexer from `pos` on, with `line` the line count it holds there. */
  function LexFrom(text: string, pos: nat, line: nat): (r: Lexed)
    requires pos <= |text|
    ensures forall i :: 0 <= i < |r.tokens| ==>
              WellFormed(text, r.tokens[i]) && pos <= r.tokens[i].offset && line <= r.tokens[i].line
    decreases |text| - pos
  {
    if pos == |text| then Lexed([], None)
    else match NextStep(text, pos, line)
      case Emit(t, next, nextLine) =>
        var rest := LexFrom(text, next, nextLine);
        Lexed([t] + rest.tokens, rest.error)
      case Skip(next) => LexFrom(text, next, line)
      case Illegal(c) => Lexed([], Some(c))
  }

  /** `Lexer().tokenize(text)`, drained. */
  function Lex(text: string): (r: Lexed)
    ensures forall i :: 0 <= i < |r.tokens| ==> WellFormed(text, r.tokens[i]) && r.tokens[i].line >= 1
  {
    LexFrom(text, 0, 1)
  }

  /** The lexer as the source runs it: a loop that advances an index and a line counter. */
  method Tokenize(text: string) returns (r: Lexed)
    ensures r == Lex(text)
  {
    var pos, line := 0, 1;
    var acc: seq<Token> := [];
    r := Lexed([], None);
    while pos < |text|
      invariant pos <= |text|
      invariant Lex(text) == Lexed(acc + LexFrom(text, pos, line).tokens, LexFrom(text, pos, line).error)
      decreases |text| - pos
    {
      match NextStep(text, pos, line)
      case Emit(t, next, nextLine) =>
        assert acc + LexFrom(text, pos, line).tokens == (acc + [t]) + LexFrom(text, next, nextLine).tokens;
        acc := acc + [t];
        pos, line := next, nextLine;
      case Skip(next) =>
        pos := next;
      case Illegal(c) =>
        return Lexed(acc, Some(c));
    }
    assert LexFrom(text, pos, line).tokens == [];
    return Lexed(acc, None);
  }

  /** The position after the last token (or `pos` when there is none). */
  function LastEnd(toks: seq<Token>, pos: nat): nat {
    if |toks| == 0 then pos else End(toks[|toks| - 1])
  }

  /** Layout yields no tokens, part 1: only spaces, tabs and a comment precede the first token. */
  lemma {:induction false} LexLeadingGap(text: string, pos: nat, line: nat)
    requires pos <= |text|
    ensures var r := LexFrom(text, pos, line);
      |r.tokens| > 0 ==> Gap(text[pos..r.tokens[0].offset])
    decreases |text| - pos
  {
    if pos < |text| {
      var s := NextStep(text, pos, line);
      if s.Emit? {
        assert text[pos..pos] == [];
      } else if s.Skip? {
        var rest := LexFrom(text, s.next, line);
        assert LexFrom(text, pos, line) == rest;
        if text[pos] == '#' {
          CommentGap(text, pos, s.next, line);
        } else if |rest.tokens| > 0 {
          LexLeadingGap(text, s.next, line);
          assert text[pos..rest.tokens[0].offset][1..] == text[s.next..rest.tokens[0].offset];
        }
      }
    }
  }

  /** Consecutive tokens come in text order with only layout between them. */
  ghost predicate Tiled(text: string, toks: seq<Token>) {
    |toks| <= 1
    || (&& End(toks[0]) <= toks[1].offset <= |text|
        && Gap(text[End(toks[0])..toks[1].offset])
        && Tiled(text, toks[1..]))
  }

  /** Layout yields no tokens, part 2: the tokens come in text order and only spaces, tabs
      and a comment lie between two consecutive ones. */
  lemma {:induction false} LexGaps(text: string, pos: nat, line: nat)
    requires pos <= |text|
    ensures Tiled(text, LexFrom(text, pos, line).tokens)
    decreases |text| - pos
  {
    if pos < |text| {
      var s := NextStep(text, pos, line);
      if s.Emit? {
        var rest := LexFrom(text, s.next, s.nextLine);
        var r := LexFrom(text, pos, line);
        assert r.tokens == [s.token] + rest.tokens;
        LexGaps(text, s.next, s.nextLine);
        LexLeadingGap(text, s.next, s.nextLine);
        assert r.tokens[1..] == rest.tokens;
      } else if s.Skip? {
        LexGaps(text, s.next, line);
        assert LexFrom(text, pos, line) == LexFrom(text, s.next, line);
      }
    }
  }

  /** After the last token lexed from `pos` there is only layout, unless the lexer stopped
      at a character that no rule matches, with only layout before it. */
  ghost predicate EndsInLayout(text: string, pos: nat, line: nat)
    requires pos <= |text|
  {
    var r := LexFrom(text, pos, line);
    && LastEnd(r.tokens, pos) <= |text|
    && (r.error.None? ==> Gap(text[LastEnd(r.tokens, pos)..]))
    && (r.error.Some? ==> exists p :: LastEnd(r.tokens, pos) <= p < |text| && text[p] == r.error.value
                                      && IllegalAt(text, p) && Gap(text[LastEnd(r.tokens, pos)..p]))
  }

  /** Layout yields no tokens, part 3: after the last token there is only layout, unless
      the lexer stopped at a character that no rule matches. */
  lemma {:induction false} LexEnd(text: string, pos: nat, line: nat)
    requires pos <= |text|
    ensures EndsInLayout(text, pos, line)
    decreases |text| - pos
  {
    if pos == |text| {
      assert text[pos..] == [];
    } else {
      var s := NextStep(text, pos, line);
      if s.Emit? {
        LexEnd(text, s.next, s.nextLine);
        EmitEnds(text, pos, line);
      } else if s.Skip? {
        LexEnd(text, s.next, line);
        SkipEnds(text, pos, line);
      } else {
        assert text[pos..pos] == [];
      }
    }
  }

  /** A token keeps the account of what follows the last one. */
  lemma EmitEnds(text: string, pos: nat, line: nat)
    requires pos < |text| && NextStep(text, pos, line).Emit?
    requires EndsInLayout(text, NextStep(text, pos, line).next, NextStep(text, pos, line).nextLine)
    ensures EndsInLayout(text, pos, line)
  {
    var s := NextStep(text, pos, line);
    var r := LexFrom(text, pos, line);
    var rest := LexFrom(text, s.next, s.nextLine);
    assert r.tokens == [s.token] + rest.tokens;
    assert LastEnd(r.tokens, pos) == LastEnd(rest.tokens, s.next);
  }

  /** Skipped layout before the next token, or before the end, stays layout. */
  lemma SkipEnds(text: string, pos: nat, line: nat)
    requires pos < |text| && NextStep(text, pos, line).Skip?
    requires EndsInLayout(text, NextStep(text, pos, line).next, line)
    ensures EndsInLayout(text, pos, line)
  {
    var s := NextStep(text, pos, line);
    var rest := LexFrom(text, s.next, line);
    assert LexFrom(text, pos, line) == rest;
    if text[pos] == '#' {
      CommentGap(text, pos, s.next, line);
      if |rest.tokens| == 0 {
        assert text[pos..] == text[pos..s.next];
      }
    } else if |rest.tokens| == 0 {
      assert text[pos..][1..] == text[s.next..];
      if rest.error.Some? {
        var p :| s.next <= p < |text| && text[p] == rest.error.value && IllegalAt(text, p) && Gap(text[s.next..p]);
        assert text[pos..p][1..] == text[s.next..p];
      }
    }
  }

  /** Every keyword starts with a letter. */
  lemma KeywordAtLetter(text: string, pos: nat)
    requires pos < |text|
    ensures KeywordAt(text, pos).Some? ==> IsAsciiLetter(text[pos])
  {
    if KeywordAt(text, pos).Some? {
      var w := FixedText(KeywordAt(text, pos).value);
      assert text[pos..pos + |w|][0] == text[pos];
    }
  }

  /** A comment runs to the next newline or the end, and the lexer resumes there. */
  lemma CommentGap(text: string, pos: nat, next: nat, line: nat)
    requires pos < |text| && text[pos] == '#' && next == RunEnd(text, pos + 1, x => x != '\n')
    ensures var r := LexFrom(text, next, line);
      && Gap(text[pos..next])
      && (|r.tokens| > 0 ==> r.tokens[0].offset == next)
      && (|r.tokens| == 0 ==> next == |text| && r.error.None?)
  {
    assert forall k :: 0 <= k < |text[pos..next]| ==> text[pos..next][k] != '\n';
    if next < |text| {
      assert text[next] == '\n';
      KeywordAtLetter(text, next);
    }
  }

  /** How far a token moves the line count: a NEWLINE token by its length, others not at all
      (newlines inside a STRING are not counted). */
  function Advance(t: Token): nat {
    if t.kind == Newline then |t.value| else 0
  }

  /** The first token carries `line`, and each later one the line of the one before plus
      the newlines that one consumed. */
  ghost predicate Numbered(toks: seq<Token>, line: nat) {
    |toks| == 0 || (toks[0].line == line && Numbered(toks[1..], line + Advance(toks[0])))
  }

  /** Line numbering of the lexer's output. */
  lemma {:induction false} LexLines(text: string, pos: nat, line: nat)
    requires pos <= |text|
    ensures Numbered(LexFrom(text, pos, line).tokens, line)
    decreases |text| - pos
  {
    if pos < |text| {
      var s := NextStep(text, pos, line);
      if s.Emit? {
        LexLines(text, s.next, s.nextLine);
        EmitNumbered(text, pos, line);
      } else if s.Skip? {
        LexLines(text, s.next, line);
        assert LexFrom(text, pos, line) == LexFrom(text, s.next, line);
      }
    }
  }

  /** An emitted token carries the current line and the tokens after it are numbered from
      the line it leaves the lexer at. */
  lemma EmitNumbered(text: string, pos: nat, line: nat)
    requires pos < |text| && NextStep(text, pos, line).Emit?
    requires var s := NextStep(text, pos, line); Numbered(LexFrom(text, s.next, s.nextLine).tokens, s.nextLine)
    ensures Numbered(LexFrom(text, pos, line).tokens, line)
  {
    var s := NextStep(text, pos, line);
    var rest := LexFrom(text, s.next, s.nextLine).tokens;
    assert LexFrom(text, pos, line).tokens == [s.token] + rest;
    NumberedCons(s.token, rest, line, s.nextLine);
  }

  lemma NumberedCons(t: Token, rest: seq<Token>, line: nat, nextLine: nat)
    requires t.line == line && nextLine == line + Advance(t) && Numbered(rest, nextLine)
    ensures Numbered([t] + rest, line)
  {
    assert ([t] + rest)[1..] == rest;
  }

  /** Each token's line is at least 1 and at most one more than the newlines before it. */
  ghost predicate LinesWithin(text: string, toks: seq<Token>) {
    |toks| == 0
    || (&& toks[0].offset <= |text|
        && 1 <= toks[0].line <= 1 + Count(text[..toks[0].offset], '\n')
        && LinesWithin(text, toks[1..]))
  }

  lemma {:induction false} LinesWithinMember(text: string, toks: seq<Token>, i: nat)
    requires LinesWithin(text, toks) && i < |toks|
    ensures toks[i].offset <= |text| && 1 <= toks[i].line <= 1 + Count(text[..toks[i].offset], '\n')
    decreases i
  {
    if i > 0 {
      LinesWithinMember(text, toks[1..], i - 1);
    }
  }

  /** A token's line never exceeds one more than the number of newlines before it. */
  lemma {:induction false} LexLineBound(text: string, pos: nat, line: nat)
    requires pos <= |text| && 1 <= line <= 1 + Count(text[..pos], '\n')
    ensures LinesWithin(text, LexFrom(text, pos, line).tokens)
    decreases |text| - pos
  {
    if pos < |text| {
      var s := NextStep(text, pos, line);
      if s.Emit? {
        CountPrefix(text, '\n', pos, s.next);
        if s.token.kind == Newline {
          assert forall k :: pos <= k < s.next ==> text[k] == s.token.value[k - pos];
        }
        LexLineBound(text, s.next, s.nextLine);
        var r := LexFrom(text, pos, line);
        assert r.tokens[1..] == LexFrom(text, s.next, s.nextLine).tokens;
      } else if s.Skip? {
        CountPrefix(text, '\n', pos, s.next);
        LexLineBound(text, s.next, line);
        assert LexFrom(text, pos, line) == LexFrom(text, s.next, line);
      }
    }
  }

  /** Every token of `Lex(text)` lies on one of the lines `text.splitlines()` gives, so a
      diagnostic can always quote its line. */
  lemma TokenLineExists(text: string, i: nat)
    requires i < |Lex(text).tokens|
    ensures 1 <= Lex(text).tokens[i].line <= |SplitLines(text)|
  {
    LexLineBound(text, 0, 1);
    LinesWithinMember(text, Lex(text).tokens, i);
    assert WellFormed(text, Lex(text).tokens[i]);
    SplitLinesCoversPosition(text, Lex(text).tokens[i].offset);
  }

  /** Keywords are tried before IDENTIFIER: an identifier directly followed by a colon
      never spells a keyword. */
  lemma KeywordNeverIdentifierColon(text: string, i: nat)
    requires i + 1 < |Lex(text).tokens|
    requires Lex(text).tokens[i].kind == Identifier && Lex(text).tokens[i + 1].kind == Colon
    requires Lex(text).tokens[i + 1].offset == End(Lex(text).tokens[i])
    ensures forall k: TokenKind :: k.IsKeyword() ==> Lex(text).tokens[i].value + ":" != FixedText(k)
  {
    var t, u := Lex(text).tokens[i], Lex(text).tokens[i + 1];
    assert WellFormed(text, t) && WellFormed(text, u);
    IdentifierColonSpelled(text, t, u);
    NoKeywordSpelled(text, t.offset, t.value + ":");
  }

  lemma IdentifierColonSpelled(text: string, t: Token, u: Token)
    requires WellFormed(text, t) && WellFormed(text, u)
    requires t.kind == Identifier && u.kind == Colon && u.offset == End(t)
    ensures StartsAt(text, t.offset, t.value + ":") && KeywordAt(text, t.offset).None?
  {
    assert text[t.offset..End(t) + 1] == t.value + ":";
  }

  lemma NoKeywordSpelled(text: string, pos: nat, w: string)
    requires StartsAt(text, pos, w) && KeywordAt(text, pos).None?
    ensures forall k: TokenKind :: k.IsKeyword() ==> w != FixedText(k)
  {
  }
}

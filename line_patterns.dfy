/** The regular expressions of the line-oriented prototype parser (src/parser.py): the
    metadata, type, function and parameter patterns, each modelled by an explicit matcher
    that returns the captures the regular-expression engine picks. Every `(.*?)` group takes
    the shortest text that lets the rest of the pattern match, and an earlier group is
    shortened before a later one. */
module LinePatterns {
  import opened Wrappers
  import opened Text
  import opened LineAst

  // ---------------------------------------------------------------------------------------
  // Pieces of the regular expressions
  // ---------------------------------------------------------------------------------------

  /** `['"]` */
  const Quotes: set<char> := {'\'', '"'}

  predicate IsQuote(c: char) {
    c in Quotes
  }

  /** Where the run of whitespace starting at `i` ends (`\s*`). */
  function SpaceEnd(s: string, i: nat): (e: nat)
    requires i <= |s|
    ensures i <= e <= |s|
    ensures forall k {:trigger IsSpace(s[k])} :: i <= k < e ==> IsSpace(s[k])
    ensures e < |s| ==> !IsSpace(s[e])
    decreases |s| - i
  {
    if i < |s| && IsSpace(s[i]) then SpaceEnd(s, i + 1) else i
  }

  /** Where the run of word characters starting at `i` ends (`\w*`). */
  function WordEnd(s: string, i: nat): (e: nat)
    requires i <= |s|
    ensures i <= e <= |s|
    ensures forall k {:trigger IsWordChar(s[k])} :: i <= k < e ==> IsWordChar(s[k])
    ensures e < |s| ==> !IsWordChar(s[e])
    decreases |s| - i
  {
    if i < |s| && IsWordChar(s[i]) then WordEnd(s, i + 1) else i
  }

  /** `.` matches every character except a line feed. */
  predicate NoBreak(s: string, i: nat, j: nat)
    requires i <= j <= |s|
  {
    forall k :: i <= k < j ==> s[k] != '\n'
  }

  /** `$`: the end of the text, or the position just before a final line feed. */
  predicate EndAt(s: string, p: nat) {
    p == |s| || (p + 1 == |s| && s[p] == '\n')
  }

  /** `(.*?)X$` from `a`, where X is one of the `close` characters: the position of the
      closing character. Only one position can be followed by `$`, so the lazy group has one choice. */
  function FinalClose(s: string, a: nat, close: set<char>): (r: Option<nat>)
    requires a <= |s| && '\n' !in close
    ensures r.Some? ==> a <= r.value < |s| && s[r.value] in close && EndAt(s, r.value + 1) && NoBreak(s, a, r.value)
    ensures r.None? ==> forall c :: a <= c < |s| && s[c] in close && EndAt(s, c + 1) ==> !NoBreak(s, a, c)
  {
    var c := if 0 < |s| && s[|s| - 1] == '\n' then |s| - 2 else |s| - 1;
    if a <= c && s[c] in close && NoBreak(s, a, c) then Some(c) else None
  }

  /** `(.*?)['"]` from `a` with nothing required after it: the first quote, unless a line
      feed comes before it. */
  function FirstQuote(s: string, a: nat): (r: Option<nat>)
    requires a <= |s|
    ensures r.Some? ==> a <= r.value < |s| && IsQuote(s[r.value]) && NoBreak(s, a, r.value)
                        && forall k {:trigger IsQuote(s[k])} :: a <= k < r.value ==> !IsQuote(s[k])
    ensures r.None? ==> forall c :: a <= c < |s| && IsQuote(s[c]) ==> !NoBreak(s, a, c)
    decreases |s| - a
  {
    if a == |s| || s[a] == '\n' then None
    else if IsQuote(s[a]) then Some(a)
    else FirstQuote(s, a + 1)
  }

  /** `(\w+):\s*['"]` at `start`: the end of the name and where the quoted text begins. */
  function NameAndQuote(s: string, start: nat): (r: Option<(nat, nat)>)
    requires start <= |s|
    ensures r.Some? ==> start < r.value.0 < r.value.1 <= |s| && s[r.value.0] == ':' && IsQuote(s[r.value.1 - 1])
                        && forall k {:trigger IsWordChar(s[k])} :: start <= k < r.value.0 ==> IsWordChar(s[k])
  {
    var n := WordEnd(s, start);
    if start < n < |s| && s[n] == ':' then
      var w := SpaceEnd(s, n + 1);
      if w < |s| && IsQuote(s[w]) then Some((n, w + 1)) else None
    else None
  }

  /** A name the `\w+` group accepts in full. */
  predicate IsName(s: string) {
    |s| >= 1 && forall k {:trigger IsWordChar(s[k])} :: 0 <= k < |s| ==> IsWordChar(s[k])
  }

  /** Text a lazy `(.*?)['"]` group captures in full: no quote and no line feed. */
  predicate IsPlain(s: string) {
    forall k :: 0 <= k < |s| ==> !IsQuote(s[k]) && s[k] != '\n'
  }

  /** A line that holds `name: '` at `start` has its name and opening quote found there. */
  lemma NameAndQuoteOf(line: string, start: nat, name: string)
    requires IsName(name) && start + |name| + 3 <= |line| && line[start..start + |name| + 3] == name + ": '"
    ensures NameAndQuote(line, start) == Some((start + |name|, start + |name| + 3))
  {
    var e := start + |name|;
    var w := line[start..e + 3];
    assert w[|name|] == ':' && w[|name| + 1] == ' ' && w[|name| + 2] == '\'' by {
      assert w == name + ": '";
    }
    assert forall k :: start <= k < e ==> line[k] == w[k - start] == name[k - start];
    assert line[e] == w[|name|] && line[e + 1] == w[|name| + 1] && line[e + 2] == w[|name| + 2];
    WordEndOver(line, start, e);
    SpaceEndOver(line, e + 1, e + 2);
  }

  /** What a slice inherits from the characters it covers. */
  lemma SliceFacts(s: string, i: nat, j: nat)
    requires i <= j <= |s|
    ensures NoBreak(s, i, j) ==> '\n' !in s[i..j]
    ensures i < j && (forall k {:trigger IsWordChar(s[k])} :: i <= k < j ==> IsWordChar(s[k])) ==> IsName(s[i..j])
  {
    assert forall k :: 0 <= k < j - i ==> s[i..j][k] == s[i + k];
  }

  /** First-match search: the least `k` in `[lo, hi)` with `ok(k)`. */
  function FirstIn(lo: nat, hi: nat, ok: nat -> bool): (r: Option<nat>)
    ensures r.Some? ==> lo <= r.value < hi && ok(r.value) && forall k :: lo <= k < r.value ==> !ok(k)
    ensures r.None? ==> forall k :: lo <= k < hi ==> !ok(k)
    decreases hi - lo
  {
    if hi <= lo then None else if ok(lo) then Some(lo) else FirstIn(lo + 1, hi, ok)
  }

  /** Backtracking over two lazy groups: the least `(i, j)` in lexicographic order, `i` in
      `[lo, hi)` and `j` in `[0, hi)`, with `ok(i, j)`. */
  function FirstPair(lo: nat, hi: nat, ok: (nat, nat) -> bool): (r: Option<(nat, nat)>)
    ensures r.Some? ==> lo <= r.value.0 < hi && r.value.1 < hi && ok(r.value.0, r.value.1)
                        && (forall i: nat, j: nat :: lo <= i < r.value.0 && j < hi ==> !ok(i, j))
                        && (forall j: nat :: j < r.value.1 ==> !ok(r.value.0, j))
    ensures r.None? ==> forall i: nat, j: nat :: lo <= i < hi && j < hi ==> !ok(i, j)
    decreases hi - lo
  {
    if hi <= lo then None
    else
      var row := (j: nat) => ok(lo, j);
      match FirstIn(0, hi, row)
      case Some(j) =>
        assert forall j': nat :: j' < j ==> !ok(lo, j') by {
          forall j': nat | j' < j ensures !ok(lo, j') { assert !row(j'); }
        }
        Some((lo, j))
      case None =>
        assert forall j: nat :: j < hi ==> !ok(lo, j) by {
          forall j: nat | j < hi ensures !ok(lo, j) { assert !row(j); }
        }
        FirstPair(lo + 1, hi, ok)
  }

  /** A pair that satisfies `ok` with no earlier pair doing so is the one `FirstPair` finds. */
  lemma {:induction false} FirstPairIs(lo: nat, hi: nat, ok: (nat, nat) -> bool, i: nat, j: nat)
    requires lo <= i < hi && j < hi && ok(i, j)
    requires forall i': nat, j': nat :: lo <= i' < i && j' < hi ==> !ok(i', j')
    requires forall j': nat :: j' < j ==> !ok(i, j')
    ensures FirstPair(lo, hi, ok) == Some((i, j))
  {
    var r := FirstPair(lo, hi, ok);
    assert r.Some?;
  }

  // ---------------------------------------------------------------------------------------
  // Metadata lines: `key:\s+['"](.*?)['"]`
  // ---------------------------------------------------------------------------------------

  /** `re.match(r'^key:\s+', line)`: the line opens a `key` metadata entry. */
  predicate OpensMeta(line: string, key: string) {
    |key| + 1 < |line| && line[..|key|] == key && line[|key|] == ':' && IsSpace(line[|key| + 1])
  }

  /** The value `re.match(rf"{key}:\s+['\"](.*?)['\"]", line)` captures, if the line matches. */
  function MetaValue(line: string, key: string): (r: Option<string>)
    ensures r.Some? ==> OpensMeta(line, key) && IsPlain(r.value)
  {
    if |key| + 1 < |line| && line[..|key|] == key && line[|key|] == ':' then
      var w := SpaceEnd(line, |key| + 1);
      if |key| + 1 < w < |line| && IsQuote(line[w]) then
        match FirstQuote(line, w + 1)
        case Some(c) => Some(line[w + 1..c])
        case None => None
      else None
    else None
  }

  /** A metadata line is read exactly as written: `key`, a colon, whitespace, then a quoted
      value without quotes or line feeds, then anything. */
  lemma MetaValueOfWritten(key: string, ws: string, q1: char, v: string, q2: char, rest: string)
    requires |ws| >= 1 && forall k {:trigger IsSpace(ws[k])} :: 0 <= k < |ws| ==> IsSpace(ws[k])
    requires IsQuote(q1) && IsQuote(q2) && IsPlain(v)
    ensures MetaValue(key + ":" + ws + [q1] + v + [q2] + rest, key) == Some(v)
  {
    var line := key + ":" + ws + [q1] + v + [q2] + rest;
    var w := |key| + 1 + |ws|;
    assert line[..|key|] == key;
    assert forall k :: |key| + 1 <= k < w ==> line[k] == ws[k - |key| - 1];
    assert line[w] == q1;
    assert forall k {:trigger IsSpace(line[k])} :: |key| + 1 <= k < w ==> IsSpace(line[k]) by {
      forall k | |key| + 1 <= k < w ensures IsSpace(line[k]) {
        assert line[k] == ws[k - |key| - 1];
      }
    }
    SpaceEndOver(line, |key| + 1, w);
    assert forall k :: w + 1 <= k < w + 1 + |v| ==> line[k] == v[k - w - 1];
    assert line[w + 1 + |v|] == q2;
    var c := FirstQuote(line, w + 1);
    assert c == Some(w + 1 + |v|);
    assert line[w + 1..w + 1 + |v|] == v;
  }

  /** Conversely, a matched line has exactly that shape. */
  lemma MetaValueShape(line: string, key: string)
    requires MetaValue(line, key).Some?
    ensures exists ws, q1, q2, rest ::
              |ws| >= 1 && (forall k {:trigger IsSpace(ws[k])} :: 0 <= k < |ws| ==> IsSpace(ws[k])) && IsQuote(q1) && IsQuote(q2)
              && line == key + ":" + ws + [q1] + MetaValue(line, key).value + [q2] + rest
  {
    var w := SpaceEnd(line, |key| + 1);
    var c := FirstQuote(line, w + 1).value;
    var ws := line[|key| + 1..w];
    var rest := line[c + 1..];
    assert forall k {:trigger IsSpace(ws[k])} :: 0 <= k < |ws| ==> IsSpace(ws[k]);
    CutThrice(line, |key|, w, c);
  }

  // ---------------------------------------------------------------------------------------
  // Type lines: `(\w+):\s*['"](.*?)['"],\s*['"](.*?)['"](,\s*\{(.*?)\})?$`
  // ---------------------------------------------------------------------------------------

  /** The groups of a matched type line; `attributes` is group 5, the inside of `{...}`. */
  datatype TypeMatch = TypeMatch(name: string, labelText: string, description: string, attributes: Option<string>)

  /** `['"],\s*['"]` at `i`: where the description starts, if the label can close at `i`. */
  function DescriptionStart(line: string, i: nat): (r: Option<nat>)
    ensures r.Some? ==> i + 2 < r.value <= |line| && IsQuote(line[i]) && line[i + 1] == ','
                        && IsQuote(line[r.value - 1])
  {
    if i + 1 < |line| && IsQuote(line[i]) && line[i + 1] == ',' then
      var w := SpaceEnd(line, i + 2);
      if w < |line| && IsQuote(line[w]) then Some(w + 1) else None
    else None
  }

  /** `(,\s*\{(.*?)\})?$` at `p`: `Some(None)` when the optional group is skipped,
      `Some(Some(inside))` when it matches, `None` when neither completes the match. */
  function AttributeTail(line: string, p: nat): (r: Option<Option<string>>)
    requires p <= |line|
    ensures r == Some(None) <==> EndAt(line, p)
    ensures r.Some? && r.value.Some? ==> '\n' !in r.value.value
  {
    if p < |line| && line[p] == ',' then
      var w := SpaceEnd(line, p + 1);
      if w < |line| && line[w] == '{' then
        match FinalClose(line, w + 1, {'}'})
        case Some(c) =>
          assert forall k :: w + 1 <= k < c ==> line[w + 1..c][k - w - 1] == line[k];
          Some(Some(line[w + 1..c]))
        case None => None
      else None
    else if EndAt(line, p) then Some(None)
    else None
  }

  /** The label closes at `i` and the description at `j`, and the rest of the pattern matches. */
  predicate TypeMatchAt(line: string, a: nat, i: nat, j: nat) {
    a <= i < |line| && NoBreak(line, a, i)
    && var b := DescriptionStart(line, i);
       b.Some? && b.value <= j < |line| && NoBreak(line, b.value, j) && IsQuote(line[j])
       && AttributeTail(line, j + 1).Some?
  }

  /** The backtracking search for the type pattern: the least `(i, j)` at which it completes. */
  function TypeSearch(line: string, a: nat): (r: Option<(nat, nat)>)
    ensures r.Some? ==> TypeMatchAt(line, a, r.value.0, r.value.1)
    ensures r.Some? ==> forall i: nat, j: nat :: a <= i < r.value.0 ==> !TypeMatchAt(line, a, i, j)
    ensures r.Some? ==> forall j: nat :: j < r.value.1 ==> !TypeMatchAt(line, a, r.value.0, j)
    ensures r.None? ==> forall i: nat, j: nat :: !TypeMatchAt(line, a, i, j)
  {
    var ok := (i: nat, j: nat) => TypeMatchAt(line, a, i, j);
    var r := FirstPair(a, |line|, ok);
    assert forall i: nat, j: nat :: ok(i, j) == TypeMatchAt(line, a, i, j);
    r
  }

  /** A match at `(i, j)` is the one the search finds when no label can close before `i`
      and no quote can close the description before `j`. */
  lemma TypeSearchFinds(line: string, a: nat, i: nat, j: nat)
    requires TypeMatchAt(line, a, i, j)
    requires forall i' :: a <= i' < i ==> DescriptionStart(line, i').None?
    requires forall j' :: DescriptionStart(line, i).value <= j' < j ==> !IsQuote(line[j'])
    ensures TypeSearch(line, a) == Some((i, j))
  {
    var r := TypeSearch(line, a);
    assert r.Some?;
    assert r.value.0 == i;
  }

  /** `re.match` with the type pattern: the shortest label, then the shortest description,
      for which the rest of the line matches. */
  function MatchType(line: string): (r: Option<TypeMatch>)
    ensures r.Some? ==> IsName(r.value.name) && |r.value.name| < |line| && line[..|r.value.name|] == r.value.name
                        && line[|r.value.name|] == ':'
    ensures r.Some? ==> '\n' !in r.value.labelText && '\n' !in r.value.description
  {
    match NameAndQuote(line, 0)
    case None => None
    case Some((n, a)) =>
      match TypeSearch(line, a)
      case None => None
      case Some((i, j)) => Some(TypeGroups(line, n, a, i, j))
  }

  /** The groups of a type match whose name ends at `n` and whose label and description
      close at `i` and `j`. */
  function TypeGroups(line: string, n: nat, a: nat, i: nat, j: nat): (m: TypeMatch)
    requires 1 <= n < a <= |line| && line[n] == ':' && forall k {:trigger IsWordChar(line[k])} :: 0 <= k < n ==> IsWordChar(line[k])
    requires TypeMatchAt(line, a, i, j)
    ensures IsName(m.name) && |m.name| < |line| && line[..|m.name|] == m.name && line[|m.name|] == ':'
    ensures '\n' !in m.labelText && '\n' !in m.description
  {
    var b := DescriptionStart(line, i).value;
    SliceFacts(line, a, i);
    SliceFacts(line, b, j);
    SliceFacts(line, 0, n);
    TypeMatch(line[..n], line[a..i], line[b..j], AttributeTail(line, j + 1).value)
  }

  /** The text after the description's closing quote that yields `attributes` as group 5. */
  function AttributeSuffix(attributes: Option<string>): string {
    match attributes
    case None => ""
    case Some(inside) => ", {" + inside + "}"
  }

  /** How a type line is written: `name: 'label', 'description'` and the optional block. */
  function TypeLineText(name: string, labelText: string, description: string, attributes: Option<string>): string {
    name + ": '" + labelText + "', '" + description + "'" + AttributeSuffix(attributes)
  }

  /** The parts of `line`, laid out as `name: 'label', 'description'` and the optional block:
      the label runs from `a` to `i` and the description from `b` to `j`. */
  predicate TypeLaidOut(line: string, name: string, labelText: string, description: string, attributes: Option<string>,
                        a: nat, i: nat, b: nat, j: nat)
  {
    && a == |name| + 3 && i == a + |labelText| && b == i + 4 && j == b + |description|
    && j < |line| && line[..a] == name + ": '"
    && line[a..i] == labelText && line[b..j] == description && line[j + 1..] == AttributeSuffix(attributes)
    && line[i] == '\'' && line[i + 1] == ',' && line[i + 2] == ' ' && line[i + 3] == '\'' && line[j] == '\''
  }

  /** Where each part of a written type line sits. */
  lemma TypeLineLayout(name: string, labelText: string, description: string, attributes: Option<string>,
                       a: nat, i: nat, b: nat, j: nat)
    requires a == |name| + 3 && i == a + |labelText| && b == i + 4 && j == b + |description|
    ensures TypeLaidOut(TypeLineText(name, labelText, description, attributes), name, labelText, description, attributes, a, i, b, j)
  {
    var line := TypeLineText(name, labelText, description, attributes);
    Pieces(name + ": '", labelText, "', '", description, "'", AttributeSuffix(attributes));
    var i := |name| + 3 + |labelText|;
    assert line[i..i + 4] == "', '";
    assert line[i] == line[i..i + 4][0];
    assert line[i + 1] == line[i..i + 4][1];
    assert line[i + 2] == line[i..i + 4][2];
    assert line[i + 3] == line[i..i + 4][3];
  }

  /** Where each of six concatenated pieces sits. */
  lemma Pieces(p0: string, p1: string, p2: string, p3: string, p4: string, p5: string)
    ensures var s := p0 + p1 + p2 + p3 + p4 + p5;
            var e0 := |p0|;
            var e1 := e0 + |p1|;
            var e2 := e1 + |p2|;
            var e3 := e2 + |p3|;
            var e4 := e3 + |p4|;
            && |s| == e4 + |p5|
            && s[..e0] == p0 && s[e0..e1] == p1 && s[e1..e2] == p2 && s[e2..e3] == p3 && s[e3..e4] == p4 && s[e4..] == p5
  {
    var s := p0 + p1 + p2 + p3 + p4 + p5;
    var s4 := p0 + p1 + p2 + p3 + p4;
    var s3 := p0 + p1 + p2 + p3;
    var s2 := p0 + p1 + p2;
    var s1 := p0 + p1;
    assert s[..|s4|] == s4 && s[|s4|..] == p5;
    assert s4[..|s3|] == s3 && s4[|s3|..] == p4;
    assert s3[..|s2|] == s2 && s3[|s2|..] == p3;
    assert s2[..|s1|] == s1 && s2[|s1|..] == p2;
    assert s1[..|p0|] == p0 && s1[|p0|..] == p1;
    assert s[|s3|..|s4|] == s4[|s3|..];
    assert s[|s2|..|s3|] == s3[|s2|..];
    assert s[|s1|..|s2|] == s2[|s1|..];
    assert s[|p0|..|s1|] == s1[|p0|..];
    assert s[..|p0|] == s1[..|p0|];
  }

  /** A type line written as `name: 'label', 'description'` with an optional `, {...}` block
      is read back as exactly those parts. */
  lemma MatchTypeOfWritten(name: string, labelText: string, description: string, attributes: Option<string>)
    requires IsName(name) && IsPlain(labelText) && IsPlain(description)
    requires attributes.Some? ==> '\n' !in attributes.value
    ensures MatchType(TypeLineText(name, labelText, description, attributes))
            == Some(TypeMatch(name, labelText, description, attributes))
  {
    var line := TypeLineText(name, labelText, description, attributes);
    var a := |name| + 3;
    var i := a + |labelText|;
    var b := i + 4;
    var j := b + |description|;
    TypeLineLayout(name, labelText, description, attributes, a, i, b, j);
    TypePositionsOfLayout(line, name, labelText, description, attributes, a, i, b, j);
    MatchTypeAt(line, |name|, a, i, b, j, TypeMatch(name, labelText, description, attributes));
  }

  /** Where the matcher's pieces find the parts of a laid-out type line. */
  lemma TypePositionsOfLayout(line: string, name: string, labelText: string, description: string, attributes: Option<string>,
                              a: nat, i: nat, b: nat, j: nat)
    requires IsName(name) && IsPlain(labelText) && IsPlain(description)
    requires attributes.Some? ==> '\n' !in attributes.value
    requires TypeLaidOut(line, name, labelText, description, attributes, a, i, b, j)
    ensures NameAndQuote(line, 0) == Some((|name|, a)) && line[..|name|] == name
    ensures IsPlain(line[a..i]) && DescriptionStart(line, i) == Some(b) && IsPlain(line[b..j])
    ensures AttributeTail(line, j + 1) == Some(attributes)
  {
    TypeNamePlaced(line, name, labelText, description, attributes, a, i, b, j);
    TypeDescriptionPlaced(line, name, labelText, description, attributes, a, i, b, j);
    TailOfSuffix(line, j + 1, attributes);
  }

  lemma TypeNamePlaced(line: string, name: string, labelText: string, description: string, attributes: Option<string>,
                       a: nat, i: nat, b: nat, j: nat)
    requires IsName(name)
    requires TypeLaidOut(line, name, labelText, description, attributes, a, i, b, j)
    ensures NameAndQuote(line, 0) == Some((|name|, a)) && line[..|name|] == name
  {
    assert line[0..a] == line[..a];
    NameAndQuoteOf(line, 0, name);
    assert line[..|name|] == line[..a][..|name|] == name;
  }

  lemma TypeDescriptionPlaced(line: string, name: string, labelText: string, description: string, attributes: Option<string>,
                              a: nat, i: nat, b: nat, j: nat)
    requires IsPlain(labelText) && IsPlain(description)
    requires TypeLaidOut(line, name, labelText, description, attributes, a, i, b, j)
    ensures IsPlain(line[a..i]) && DescriptionStart(line, i) == Some(b) && IsPlain(line[b..j])
  {
    SpaceEndOver(line, i + 2, i + 3);
  }

  /** `MatchType` once the name and the label's and description's closing positions are located. */
  lemma MatchTypeAt(line: string, n: nat, a: nat, i: nat, b: nat, j: nat, m: TypeMatch)
    requires NameAndQuote(line, 0) == Some((n, a))
    requires a <= i <= |line| && IsPlain(line[a..i]) && DescriptionStart(line, i) == Some(b)
    requires b <= j < |line| && IsPlain(line[b..j]) && IsQuote(line[j]) && AttributeTail(line, j + 1) == Some(m.attributes)
    requires line[..n] == m.name && line[a..i] == m.labelText && line[b..j] == m.description
    ensures MatchType(line) == Some(m)
  {
    PlainSlice(line, a, i);
    PlainSlice(line, b, j);
    assert TypeMatchAt(line, a, i, j);
    TypeSearchFinds(line, a, i, j);
    MatchTypeFound(line, n, a, i, j);
  }

  /** What `MatchType` returns once the name and the two lazy groups are located. */
  lemma MatchTypeFound(line: string, n: nat, a: nat, i: nat, j: nat)
    requires NameAndQuote(line, 0) == Some((n, a)) && TypeSearch(line, a) == Some((i, j))
    ensures MatchType(line) == Some(TypeGroups(line, n, a, i, j))
  {
  }

  /** A plain slice has no line feed and no quote. */
  lemma PlainSlice(s: string, i: nat, j: nat)
    requires i <= j <= |s| && IsPlain(s[i..j])
    ensures NoBreak(s, i, j) && forall k {:trigger IsQuote(s[k])} :: i <= k < j ==> !IsQuote(s[k])
  {
    assert forall k :: i <= k < j ==> s[k] == s[i..j][k - i];
  }

  /** The optional group reads back the block `AttributeSuffix` wrote. */
  lemma TailOfSuffix(line: string, p: nat, attributes: Option<string>)
    requires p <= |line| && line[p..] == AttributeSuffix(attributes)
    requires attributes.Some? ==> '\n' !in attributes.value
    ensures AttributeTail(line, p) == Some(attributes)
  {
    if attributes.Some? {
      var inside := attributes.value;
      assert line[p] == ',' && line[p + 1] == ' ' && line[p + 2] == '{';
      assert SpaceEnd(line, p + 2) == p + 2;
      assert SpaceEnd(line, p + 1) == p + 2;
      assert |line| == p + 3 + |inside| + 1 && line[|line| - 1] == '}';
      assert forall k :: p + 3 <= k < |line| - 1 ==> line[k] == inside[k - p - 3];
      assert FinalClose(line, p + 3, {'}'}) == Some(|line| - 1);
      assert line[p + 3..|line| - 1] == inside;
    } else {
      assert |line| == p;
    }
  }

  // ---------------------------------------------------------------------------------------
  // Function lines: `(\w+):\s*['"](.*?)['"]\s*\((.*?)\)\s*->\s*(\w+):\s*['"](.*?)['"]$`
  // ---------------------------------------------------------------------------------------

  datatype FunctionMatch = FunctionMatch(name: string, labelText: string, parameters: string, outputType: string, outputLabel: string)

  /** `['"]\s*\(` at `i`: where the parameter list starts, if the label can close at `i`. */
  function ParametersStart(line: string, i: nat): (r: Option<nat>)
    ensures r.Some? ==> i + 1 < r.value <= |line| && IsQuote(line[i]) && line[r.value - 1] == '('
  {
    if i < |line| && IsQuote(line[i]) then
      var w := SpaceEnd(line, i + 1);
      if w < |line| && line[w] == '(' then Some(w + 1) else None
    else None
  }

  /** `\)\s*->\s*(\w+):\s*['"](.*?)['"]$` at `j`: the output name's start and end, and the
      output label's start and end. */
  function OutputTail(line: string, j: nat): (r: Option<(nat, nat, nat, nat)>)
    ensures r.Some? ==> j < r.value.0 < r.value.1 < r.value.2 <= r.value.3 < |line|
                        && line[j] == ')' && NoBreak(line, r.value.2, r.value.3)
                        && forall k {:trigger IsWordChar(line[k])} :: r.value.0 <= k < r.value.1 ==> IsWordChar(line[k])
  {
    if j < |line| && line[j] == ')' then ArrowTail(line, SpaceEnd(line, j + 1)) else None
  }

  /** `->\s*(\w+):\s*['"](.*?)['"]$` at `w`. */
  function ArrowTail(line: string, w: nat): (r: Option<(nat, nat, nat, nat)>)
    requires w <= |line|
    ensures r.Some? ==> w + 1 < r.value.0 < r.value.1 < r.value.2 <= r.value.3 < |line|
                        && NoBreak(line, r.value.2, r.value.3)
                        && forall k {:trigger IsWordChar(line[k])} :: r.value.0 <= k < r.value.1 ==> IsWordChar(line[k])
  {
    if w + 1 < |line| && line[w] == '-' && line[w + 1] == '>' then OutputGroups(line, SpaceEnd(line, w + 2)) else None
  }

  /** `(\w+):\s*['"](.*?)['"]$` at `s`. */
  function OutputGroups(line: string, s: nat): (r: Option<(nat, nat, nat, nat)>)
    requires s <= |line|
    ensures r.Some? ==> s == r.value.0 < r.value.1 < r.value.2 <= r.value.3 < |line|
                        && NoBreak(line, r.value.2, r.value.3)
                        && forall k {:trigger IsWordChar(line[k])} :: r.value.0 <= k < r.value.1 ==> IsWordChar(line[k])
  {
    match NameAndQuote(line, s)
    case None => None
    case Some((n, q)) =>
      match FinalClose(line, q, Quotes)
      case Some(c) => Some((s, n, q, c))
      case None => None
  }

  /** The label closes at `i` and the parameter list at `j`, and the rest of the pattern matches. */
  predicate FunctionMatchAt(line: string, a: nat, i: nat, j: nat) {
    a <= i < |line| && NoBreak(line, a, i)
    && var p := ParametersStart(line, i);
       p.Some? && p.value <= j < |line| && NoBreak(line, p.value, j) && OutputTail(line, j).Some?
  }

  /** The backtracking search for the function pattern: the least `(i, j)` at which it completes. */
  function FunctionSearch(line: string, a: nat): (r: Option<(nat, nat)>)
    ensures r.Some? ==> FunctionMatchAt(line, a, r.value.0, r.value.1)
    ensures r.Some? ==> forall i: nat, j: nat :: a <= i < r.value.0 ==> !FunctionMatchAt(line, a, i, j)
    ensures r.Some? ==> forall j: nat :: j < r.value.1 ==> !FunctionMatchAt(line, a, r.value.0, j)
    ensures r.None? ==> forall i: nat, j: nat :: !FunctionMatchAt(line, a, i, j)
  {
    var ok := (i: nat, j: nat) => FunctionMatchAt(line, a, i, j);
    var r := FirstPair(a, |line|, ok);
    assert forall i: nat, j: nat :: ok(i, j) == FunctionMatchAt(line, a, i, j);
    r
  }

  /** A match at `(i, j)` is the one the search finds when no label can close before `i`
      and no `)` can close the parameters before `j`. */
  lemma FunctionSearchFinds(line: string, a: nat, i: nat, j: nat)
    requires FunctionMatchAt(line, a, i, j)
    requires forall i' :: a <= i' < i ==> ParametersStart(line, i').None?
    requires forall j' :: ParametersStart(line, i).value <= j' < j ==> OutputTail(line, j').None?
    ensures FunctionSearch(line, a) == Some((i, j))
  {
    var ok := (i: nat, j: nat) => FunctionMatchAt(line, a, i, j);
    forall i': nat, j': nat | a <= i' < i && j' < |line| ensures !ok(i', j') {
      assert ParametersStart(line, i').None?;
    }
    forall j': nat | j' < j ensures !ok(i, j') {
      if ParametersStart(line, i).value <= j' {
        assert OutputTail(line, j').None?;
      }
    }
    FirstPairIs(a, |line|, ok, i, j);
  }

  /** `re.match` with the function pattern: the shortest label, then the shortest parameter
      text, for which the rest of the line matches. */
  function MatchFunction(line: string): (r: Option<FunctionMatch>)
    ensures r.Some? ==> IsName(r.value.name) && |r.value.name| < |line| && line[..|r.value.name|] == r.value.name
                        && line[|r.value.name|] == ':' && IsName(r.value.outputType)
    ensures r.Some? ==> '\n' !in r.value.labelText && '\n' !in r.value.parameters && '\n' !in r.value.outputLabel
  {
    match NameAndQuote(line, 0)
    case None => None
    case Some((n, a)) =>
      match FunctionSearch(line, a)
      case None => None
      case Some((i, j)) => Some(FunctionGroups(line, n, a, i, j))
  }

  /** The groups of a function match whose name ends at `n` and whose label and parameter
      text close at `i` and `j`. */
  function FunctionGroups(line: string, n: nat, a: nat, i: nat, j: nat): (m: FunctionMatch)
    requires 1 <= n < a <= |line| && line[n] == ':' && forall k {:trigger IsWordChar(line[k])} :: 0 <= k < n ==> IsWordChar(line[k])
    requires FunctionMatchAt(line, a, i, j)
    ensures IsName(m.name) && |m.name| < |line| && line[..|m.name|] == m.name && line[|m.name|] == ':'
    ensures IsName(m.outputType)
    ensures '\n' !in m.labelText && '\n' !in m.parameters && '\n' !in m.outputLabel
  {
    var p := ParametersStart(line, i).value;
    var t := OutputTail(line, j).value;
    SliceFacts(line, a, i);
    SliceFacts(line, p, j);
    SliceFacts(line, t.0, t.1);
    SliceFacts(line, t.2, t.3);
    SliceFacts(line, 0, n);
    FunctionMatch(line[..n], line[a..i], line[p..j], line[t.0..t.1], line[t.2..t.3])
  }

  /** What `MatchFunction` returns once the name and the two lazy groups are located. */
  lemma MatchFunctionFound(line: string, n: nat, a: nat, i: nat, j: nat)
    requires NameAndQuote(line, 0) == Some((n, a)) && FunctionSearch(line, a) == Some((i, j))
    ensures MatchFunction(line) == Some(FunctionGroups(line, n, a, i, j))
  {
  }

  /** `parameters` holds no `)` and no line feed, so the lazy group ends at the first `)`. */
  predicate IsParameterText(s: string) {
    forall k :: 0 <= k < |s| ==> s[k] != ')' && s[k] != '\n'
  }

  /** How a parameter or a function's result is written: `name: 'label'`. */
  function NamedText(name: string, labelText: string): string {
    name + ": '" + labelText + "'"
  }

  /** How a function line is written: `name: 'label' (parameters) -> out: 'output label'`. */
  function FunctionLineText(name: string, labelText: string, parameters: string, outputType: string, outputLabel: string): string {
    name + ": '" + labelText + "' (" + parameters + ") -> " + NamedText(outputType, outputLabel)
  }

  /** The parts of `line`, laid out as `name: 'label' (parameters) -> out: 'output label'`:
      the label runs from `a` to `i`, the parameter text from `p` to `j`, and the result's
      name ends at `n`. */
  predicate FunctionLaidOut(line: string, name: string, labelText: string, parameters: string, outputType: string, outputLabel: string,
                            a: nat, i: nat, p: nat, j: nat, n: nat)
  {
    && a == |name| + 3 && i == a + |labelText| && p == i + 3 && j == p + |parameters| && n == j + 5 + |outputType|
    && |line| == n + 3 + |outputLabel| + 1 && line[..a] == name + ": '" && line[a..i] == labelText
    && line[i] == '\'' && line[i + 1] == ' ' && line[i + 2] == '('
    && line[p..j] == parameters
    && line[j] == ')' && line[j + 1] == ' ' && line[j + 2] == '-' && line[j + 3] == '>' && line[j + 4] == ' '
    && line[j + 5..n] == outputType && line[n] == ':' && line[n + 1] == ' ' && line[n + 2] == '\''
    && line[n + 3..|line| - 1] == outputLabel && line[|line| - 1] == '\''
  }

  /** Where each part of a written function line sits. */
  lemma FunctionLineLayout(name: string, labelText: string, parameters: string, outputType: string, outputLabel: string,
                           a: nat, i: nat, p: nat, j: nat, n: nat)
    requires a == |name| + 3 && i == a + |labelText| && p == i + 3 && j == p + |parameters| && n == j + 5 + |outputType|
    ensures FunctionLaidOut(FunctionLineText(name, labelText, parameters, outputType, outputLabel),
                            name, labelText, parameters, outputType, outputLabel, a, i, p, j, n)
  {
    var o := NamedText(outputType, outputLabel);
    var line := FunctionLineText(name, labelText, parameters, outputType, outputLabel);
    var s := |name| + 3 + |labelText| + 3 + |parameters| + 5;
    FunctionHeadLayout(name, labelText, parameters, o);
    NamedTextLayout(outputType, outputLabel);
    var q := |outputType| + 3;
    SliceOfSuffix(line, s, o, 0, |outputType|);
    SliceOfSuffix(line, s, o, q, |o| - 1);
    SliceOfSuffix(line, s, o, |outputType|, q);
    SliceOfSuffix(line, s, o, |o| - 1, |o|);
  }

  /** Where the parts before the result sit in `name: 'label' (parameters) -> o`. */
  lemma FunctionHeadLayout(name: string, labelText: string, parameters: string, o: string)
    ensures var line := name + ": '" + labelText + "' (" + parameters + ") -> " + o;
            var a := |name| + 3;
            var i := a + |labelText|;
            var p := i + 3;
            var j := p + |parameters|;
            && |line| == j + 5 + |o| && line[..a] == name + ": '" && line[a..i] == labelText
            && line[i] == '\'' && line[i + 1] == ' ' && line[i + 2] == '('
            && line[p..j] == parameters
            && line[j] == ')' && line[j + 1] == ' ' && line[j + 2] == '-' && line[j + 3] == '>' && line[j + 4] == ' '
            && line[j + 5..] == o
  {
    var line := name + ": '" + labelText + "' (" + parameters + ") -> " + o;
    Pieces(name + ": '", labelText, "' (", parameters, ") -> ", o);
    var i := |name| + 3 + |labelText|;
    var j := i + 3 + |parameters|;
    assert line[i..i + 3] == "' (";
    assert line[i] == line[i..i + 3][0] && line[i + 1] == line[i..i + 3][1] && line[i + 2] == line[i..i + 3][2];
    assert line[j..j + 5] == ") -> ";
    assert line[j] == line[j..j + 5][0] && line[j + 1] == line[j..j + 5][1] && line[j + 2] == line[j..j + 5][2];
    assert line[j + 3] == line[j..j + 5][3] && line[j + 4] == line[j..j + 5][4];
  }

  /** Where the parts of `out: 'output label'` sit. */
  lemma NamedTextLayout(name: string, labelText: string)
    ensures var o := NamedText(name, labelText);
            var q := |name| + 3;
            && |o| == q + |labelText| + 1 && o[..|name|] == name
            && o[|name|] == ':' && o[|name| + 1] == ' ' && o[|name| + 2] == '\''
            && o[q..|o| - 1] == labelText && o[|o| - 1] == '\''
  {
    var o := NamedText(name, labelText);
    var q := |name| + 3;
    assert o == (name + ": '") + labelText + "'";
    assert o[..q] == name + ": '";
    assert o[..|name|] == o[..q][..|name|];
    assert o[q..|o| - 1] == labelText;
  }

  /** A slice of a suffix is a slice of the whole. */
  lemma SliceOfSuffix(line: string, k: nat, o: string, x: nat, y: nat)
    requires k <= |line| && line[k..] == o && x <= y <= |o|
    ensures line[k + x..k + y] == o[x..y]
    ensures x < |o| ==> line[k + x] == o[x]
    ensures |line| == k + |o|
  {
    assert forall m :: x <= m < y ==> line[k + m] == o[m];
  }

  /** A function line written as `name: 'label' (parameters) -> out: 'output label'` is read
      back as exactly those parts. */
  lemma MatchFunctionOfWritten(name: string, labelText: string, parameters: string, outputType: string, outputLabel: string)
    requires IsName(name) && IsPlain(labelText) && IsParameterText(parameters)
    requires IsName(outputType) && '\n' !in outputLabel
    ensures MatchFunction(FunctionLineText(name, labelText, parameters, outputType, outputLabel))
            == Some(FunctionMatch(name, labelText, parameters, outputType, outputLabel))
  {
    var line := FunctionLineText(name, labelText, parameters, outputType, outputLabel);
    var a := |name| + 3;
    var i := a + |labelText|;
    var p := i + 3;
    var j := p + |parameters|;
    var n := j + 5 + |outputType|;
    FunctionLinePositions(line, name, labelText, parameters, outputType, outputLabel, a, i, p, j, n);
  }

  /** The groups the pattern finds in a written function line, at the positions given. */
  lemma FunctionLinePositions(line: string, name: string, labelText: string, parameters: string, outputType: string,
                              outputLabel: string, a: nat, i: nat, p: nat, j: nat, n: nat)
    requires IsName(name) && IsPlain(labelText) && IsParameterText(parameters)
    requires IsName(outputType) && '\n' !in outputLabel
    requires line == FunctionLineText(name, labelText, parameters, outputType, outputLabel)
    requires a == |name| + 3 && i == a + |labelText| && p == i + 3 && j == p + |parameters| && n == j + 5 + |outputType|
    ensures MatchFunction(line) == Some(FunctionMatch(name, labelText, parameters, outputType, outputLabel))
  {
    FunctionLineLayout(name, labelText, parameters, outputType, outputLabel, a, i, p, j, n);
    FunctionPositionsOfLayout(line, name, labelText, parameters, outputType, outputLabel, a, i, p, j, n);
    MatchFunctionAt(line, |name|, a, i, p, j, (j + 5, n, n + 3, |line| - 1),
                    FunctionMatch(name, labelText, parameters, outputType, outputLabel));
  }

  /** The result part `) -> out: 'output label'` of a line is found where it was written. */
  lemma OutputTailOfLayout(line: string, j: nat, n: nat, outputType: string, outputLabel: string)
    requires IsName(outputType) && '\n' !in outputLabel
    requires n == j + 5 + |outputType| && |line| == n + 3 + |outputLabel| + 1
    requires line[j] == ')' && line[j + 1] == ' ' && line[j + 2] == '-' && line[j + 3] == '>' && line[j + 4] == ' '
    requires line[j + 5..n] == outputType && line[n] == ':' && line[n + 1] == ' ' && line[n + 2] == '\''
    requires line[n + 3..|line| - 1] == outputLabel && line[|line| - 1] == '\''
    ensures OutputTail(line, j) == Some((j + 5, n, n + 3, |line| - 1))
  {
    var s := j + 5;
    NamedQuoteAt(line, s, n, outputType, outputLabel);
    assert OutputGroups(line, s) == Some((s, n, n + 3, |line| - 1));
    SpaceEndOver(line, j + 4, s);
    assert ArrowTail(line, j + 2) == Some((s, n, n + 3, |line| - 1));
    SpaceEndOver(line, j + 1, j + 2);
  }

  /** `name: 'label'` from `s` to the end of the line: the name, the opening quote and the
      closing quote are found where they were written. */
  lemma NamedQuoteAt(line: string, s: nat, n: nat, name: string, labelText: string)
    requires IsName(name) && '\n' !in labelText
    requires n == s + |name| && |line| == n + 3 + |labelText| + 1
    requires line[s..n] == name && line[n] == ':' && line[n + 1] == ' ' && line[n + 2] == '\''
    requires line[n + 3..|line| - 1] == labelText && line[|line| - 1] == '\''
    ensures NameAndQuote(line, s) == Some((n, n + 3)) && FinalClose(line, n + 3, Quotes) == Some(|line| - 1)
  {
    var q := n + 3;
    assert line[s..q] == name + ": '" by {
      assert forall k :: s <= k < n ==> line[s..q][k - s] == line[k] == name[k - s];
    }
    NameAndQuoteOf(line, s, name);
    FinalQuoteAt(line, q, labelText);
  }

  /** A quote that ends the line closes a lazy group that starts at `q` and holds no line feed. */
  lemma FinalQuoteAt(line: string, q: nat, labelText: string)
    requires '\n' !in labelText && |line| == q + |labelText| + 1
    requires line[q..|line| - 1] == labelText && IsQuote(line[|line| - 1])
    ensures FinalClose(line, q, Quotes) == Some(|line| - 1)
  {
    assert forall k :: q <= k < |line| - 1 ==> line[k] == labelText[k - q];
  }

  /** Where the matcher's pieces find the parts of a laid-out function line. */
  lemma FunctionPositionsOfLayout(line: string, name: string, labelText: string, parameters: string, outputType: string, outputLabel: string,
                                  a: nat, i: nat, p: nat, j: nat, n: nat)
    requires IsName(name) && IsPlain(labelText) && IsParameterText(parameters)
    requires IsName(outputType) && '\n' !in outputLabel
    requires FunctionLaidOut(line, name, labelText, parameters, outputType, outputLabel, a, i, p, j, n)
    ensures NameAndQuote(line, 0) == Some((|name|, a)) && line[..|name|] == name
    ensures IsPlain(line[a..i]) && ParametersStart(line, i) == Some(p) && IsParameterText(line[p..j])
    ensures OutputTail(line, j) == Some((j + 5, n, n + 3, |line| - 1))
  {
    OutputTailOfLayout(line, j, n, outputType, outputLabel);
    assert line[0..a] == line[..a];
    NameAndQuoteOf(line, 0, name);
    ParametersStartAt(line, i);
    assert line[..|name|] == line[..a][..|name|] == name;
  }

  /** `' (` at `i` opens the parameter list right after the parenthesis. */
  lemma ParametersStartAt(line: string, i: nat)
    requires i + 2 < |line| && line[i] == '\'' && line[i + 1] == ' ' && line[i + 2] == '('
    ensures ParametersStart(line, i) == Some(i + 3)
  {
    SpaceEndOver(line, i + 1, i + 2);
  }

  /** The search settles on the label closing at `i` and the parameter text at `j` when
      neither holds a character that could close it earlier. */
  lemma FunctionSearchOfLayout(line: string, a: nat, i: nat, p: nat, j: nat)
    requires a <= i <= |line| && IsPlain(line[a..i])
    requires ParametersStart(line, i) == Some(p)
    requires p <= j <= |line| && IsParameterText(line[p..j]) && OutputTail(line, j).Some?
    ensures FunctionSearch(line, a) == Some((i, j))
  {
    PlainSlice(line, a, i);
    ParameterSlice(line, p, j);
    assert FunctionMatchAt(line, a, i, j);
    forall j' | p <= j' < j ensures OutputTail(line, j').None? {
      assert line[j'] != ')';
    }
    FunctionSearchFinds(line, a, i, j);
  }

  /** `MatchFunction` once the name, the label's and the parameters' closing positions and
      the result are located. */
  lemma MatchFunctionAt(line: string, n: nat, a: nat, i: nat, p: nat, j: nat, t: (nat, nat, nat, nat), m: FunctionMatch)
    requires NameAndQuote(line, 0) == Some((n, a))
    requires a <= i <= |line| && IsPlain(line[a..i]) && ParametersStart(line, i) == Some(p)
    requires p <= j <= |line| && IsParameterText(line[p..j]) && OutputTail(line, j) == Some(t)
    requires line[..n] == m.name && line[a..i] == m.labelText && line[p..j] == m.parameters
    requires line[t.0..t.1] == m.outputType && line[t.2..t.3] == m.outputLabel
    ensures MatchFunction(line) == Some(m)
  {
    FunctionSearchOfLayout(line, a, i, p, j);
    MatchFunctionFound(line, n, a, i, j);
  }

  /** A parameter-text slice has no line feed and no `)`. */
  lemma ParameterSlice(s: string, i: nat, j: nat)
    requires i <= j <= |s| && IsParameterText(s[i..j])
    ensures NoBreak(s, i, j) && forall k :: i <= k < j ==> s[k] != ')'
  {
    assert forall k :: i <= k < j ==> s[k] == s[i..j][k - i];
  }

  /** A run of whitespace from `i` to `e`, with `e` not whitespace, is the longest. */
  lemma {:induction false} SpaceEndOver(s: string, i: nat, e: nat)
    requires i <= e <= |s|
    requires forall k {:trigger IsSpace(s[k])} :: i <= k < e ==> IsSpace(s[k])
    requires e < |s| ==> !IsSpace(s[e])
    ensures SpaceEnd(s, i) == e
    decreases e - i
  {
    if i < e {
      SpaceEndOver(s, i + 1, e);
    }
  }

  /** A run of word characters from `i` to `e`, with `e` not one, is the longest. */
  lemma {:induction false} WordEndOver(s: string, i: nat, e: nat)
    requires i <= e <= |s|
    requires forall k {:trigger IsWordChar(s[k])} :: i <= k < e ==> IsWordChar(s[k])
    requires e < |s| ==> !IsWordChar(s[e])
    ensures WordEnd(s, i) == e
    decreases e - i
  {
    if i < e {
      WordEndOver(s, i + 1, e);
    }
  }

  // ---------------------------------------------------------------------------------------
  // Parameters: `(\w+):\s*['"](.*?)['"]$`
  // ---------------------------------------------------------------------------------------

  /** The `(name, label)` pair of one trimmed parameter, if it matches. */
  function MatchParameter(s: string): (r: Option<Parameter>)
    ensures r.Some? ==> IsName(r.value.0) && '\n' !in r.value.1
  {
    match NameAndQuote(s, 0)
    case None => None
    case Some((n, a)) =>
      match FinalClose(s, a, Quotes)
      case None => None
      case Some(c) =>
        assert forall k :: 0 <= k < c - a ==> s[a..c][k] == s[a + k];
        Some((s[..n], s[a..c]))
  }

  /** A written parameter reads back as itself. */
  lemma MatchParameterOfWritten(p: Parameter)
    requires IsName(p.0) && '\n' !in p.1
    ensures MatchParameter(NamedText(p.0, p.1)) == Some(p)
  {
    var s := NamedText(p.0, p.1);
    var n := |p.0|;
    NamedTextLayout(p.0, p.1);
    assert s[0..n] == s[..n];
    NamedQuoteAt(s, 0, n, p.0, p.1);
  }
}

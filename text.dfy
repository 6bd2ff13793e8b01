/** The handful of Python `str` operations the Ontol tools rely on, written out over
    `seq<char>`: `split`, `join`, `strip`, `isspace`, `str(int)` and `lower` on one
    character. Each carries the property its callers need. */
module Text {

  /** Python's `str.isspace` (also what `\s` matches in a `str` pattern). */
  predicate IsSpace(c: char) {
    c == ' ' || ('\t' <= c <= '\r') || ('\U{001C}' <= c <= '\U{001F}')
    || c == '\U{0085}' || c == '\U{00A0}' || c == '\U{1680}'
    || ('\U{2000}' <= c <= '\U{200A}') || c == '\U{2028}' || c == '\U{2029}'
    || c == '\U{202F}' || c == '\U{205F}' || c == '\U{3000}'
  }

  predicate IsAsciiLetter(c: char) {
    ('a' <= c <= 'z') || ('A' <= c <= 'Z')
  }

  predicate IsDigit(c: char) {
    '0' <= c <= '9'
  }

  /** What `\w` matches in a `str` pattern, restricted to ASCII and Cyrillic letters. */
  predicate IsWordChar(c: char) {
    IsAsciiLetter(c) || IsDigit(c) || c == '_'
    || ('\U{0400}' <= c <= '\U{0481}') || ('\U{048A}' <= c <= '\U{04FF}')
  }

  /** `sep.join(parts)` */
  function Join(parts: seq<string>, sep: string): (r: string)
    ensures |parts| == 1 ==> r == parts[0]
    decreases |parts|
  {
    if |parts| == 0 then ""
    else if |parts| == 1 then parts[0]
    else parts[0] + sep + Join(parts[1..], sep)
  }

  /** `s.split(c)` for a one-character separator: every separator cuts, so there is
      always one more piece than separators. */
  function Split(s: string, c: char): (parts: seq<string>)
    ensures |parts| >= 1
    decreases |s|
  {
    if |s| == 0 then [""]
    else
      var rest := Split(s[1..], c);
      if s[0] == c then [""] + rest else [[s[0]] + rest[0]] + rest[1..]
  }

  lemma {:induction false} SplitNoSeparator(w: string, c: char)
    requires c !in w
    ensures Split(w, c) == [w]
    decreases |w|
  {
    if |w| > 0 {
      assert c !in w[1..];
      SplitNoSeparator(w[1..], c);
      assert [w[0]] + w[1..] == w;
    }
  }

  lemma {:induction false} SplitAtSeparator(w: string, c: char, rest: string)
    requires c !in w
    ensures Split(w + [c] + rest, c) == [w] + Split(rest, c)
    decreases |w|
  {
    if |w| == 0 {
      assert w + [c] + rest == [c] + rest;
      assert ([c] + rest)[1..] == rest;
    } else {
      assert (w + [c] + rest)[1..] == w[1..] + [c] + rest;
      SplitAtSeparator(w[1..], c, rest);
      assert [w[0]] + w[1..] == w;
    }
  }

  /** `split` undoes `join` when no piece contains the separator. */
  lemma {:induction false} SplitJoin(parts: seq<string>, c: char)
    requires |parts| >= 1
    requires forall k :: 0 <= k < |parts| ==> c !in parts[k]
    ensures Split(Join(parts, [c]), c) == parts
    decreases |parts|
  {
    if |parts| == 1 {
      SplitNoSeparator(parts[0], c);
    } else {
      SplitJoin(parts[1..], c);
      SplitAtSeparator(parts[0], c, Join(parts[1..], [c]));
      assert [parts[0]] + parts[1..] == parts;
    }
  }

  /** `join` undoes `split`, so `split` loses nothing. */
  lemma {:induction false} JoinSplit(s: string, c: char)
    ensures Join(Split(s, c), [c]) == s
    ensures forall k :: 0 <= k < |Split(s, c)| ==> c !in Split(s, c)[k]
    decreases |s|
  {
    if |s| > 0 {
      JoinSplit(s[1..], c);
      var rest := Split(s[1..], c);
      if s[0] == c {
        assert Split(s, c) == [""] + rest;
        assert s == [c] + s[1..];
      } else {
        assert s == [s[0]] + s[1..];
        if |rest| == 1 {
          assert Join(Split(s, c), [c]) == [s[0]] + rest[0];
        } else {
          assert Split(s, c)[1..] == rest[1..];
          assert Join(rest, [c]) == rest[0] + [c] + Join(rest[1..], [c]);
        }
      }
    }
  }

  /** Splitting a join whose leading parts hold no separator gives those parts back,
      followed by the pieces of the last part. */
  lemma {:induction false} SplitJoinTail(parts: seq<string>, tail: string, c: char)
    requires forall k :: 0 <= k < |parts| ==> c !in parts[k]
    ensures Split(Join(parts + [tail], [c]), c) == parts + Split(tail, c)
    decreases |parts|
  {
    if |parts| > 0 {
      var rest := parts[1..] + [tail];
      assert (parts + [tail])[1..] == rest;
      SplitJoinTail(parts[1..], tail, c);
      SplitAtSeparator(parts[0], c, Join(rest, [c]));
      assert [parts[0]] + parts[1..] == parts;
    }
  }

  /** Joining one more part adds the separator and the part at the end. */
  lemma {:induction false} JoinAppend(parts: seq<string>, last: string, sep: string)
    requires |parts| >= 1
    ensures Join(parts + [last], sep) == Join(parts, sep) + sep + last
    decreases |parts|
  {
    if |parts| == 1 {
      assert (parts + [last])[1..] == [last];
    } else {
      assert (parts + [last])[1..] == parts[1..] + [last];
      JoinAppend(parts[1..], last, sep);
    }
  }

  /** `s.split(c, 1)`: the text before the first `c` and the text after it, or `s` alone
      when `c` does not occur. */
  function SplitOnce(s: string, c: char): (parts: seq<string>)
    ensures 1 <= |parts| <= 2
    ensures |parts| == 1 <==> c !in s
    ensures |parts| == 1 ==> parts[0] == s
    ensures |parts| == 2 ==> s == parts[0] + [c] + parts[1] && c !in parts[0]
    decreases |s|
  {
    if |s| == 0 then [""]
    else if s[0] == c then ["", s[1..]]
    else
      var r := SplitOnce(s[1..], c);
      if |r| == 1 then [s] else [[s[0]] + r[0], r[1]]
  }

  /** `split(c, 1)` cuts at the first separator and nowhere else. */
  lemma SplitOnceAt(w: string, c: char, rest: string)
    requires c !in w
    ensures SplitOnce(w + [c] + rest, c) == [w, rest]
  {
    var s := w + [c] + rest;
    var parts := SplitOnce(s, c);
    var k := |parts[0]|;
    assert k == |w| by {
      assert s[k] == c && s[|w|] == c;
      assert forall i :: 0 <= i < |w| ==> s[i] == w[i];
      assert forall i :: 0 <= i < k ==> s[i] == parts[0][i];
    }
    assert parts[0] == s[..k] == w;
    assert parts[1] == s[k + 1..] == rest;
  }

  /** `s.startswith(prefix)` */
  predicate StartsWith(s: string, prefix: string) {
    |prefix| <= |s| && s[..|prefix|] == prefix
  }

  /** Each text after a ", " separator keeps its leading space when split at commas. */
  function SpaceLed(texts: seq<string>): (r: seq<string>)
    ensures |r| == |texts|
    ensures forall k :: 0 <= k < |r| ==> r[k] == " " + texts[k]
  {
    if |texts| == 0 then [] else [" " + texts[0]] + SpaceLed(texts[1..])
  }

  lemma {:induction false} JoinCommaSpace(texts: seq<string>)
    requires |texts| >= 1
    requires forall k :: 0 <= k < |texts| ==> ',' !in texts[k]
    ensures Split(Join(texts, ", "), ',') == [texts[0]] + SpaceLed(texts[1..])
    decreases |texts|
  {
    if |texts| == 1 {
      SplitNoSeparator(texts[0], ',');
    } else {
      JoinCommaSpace([" " + texts[1]] + texts[2..]);
      var rest := [" " + texts[1]] + texts[2..];
      assert Join(texts[1..], ", ") == texts[1] + ", " + Join(texts[2..], ", ") || |texts| == 2;
      assert " " + Join(texts[1..], ", ") == Join(rest, ", ") by {
        if |texts| == 2 {
          assert texts[1..] == [texts[1]] && rest == [" " + texts[1]];
        } else {
          assert rest[1..] == texts[2..];
        }
      }
      assert Join(texts, ", ") == texts[0] + [','] + Join(rest, ", ");
      SplitAtSeparator(texts[0], ',', Join(rest, ", "));
      assert SpaceLed(texts[1..]) == [" " + texts[1]] + SpaceLed(texts[2..]);
      assert rest[1..] == texts[2..];
    }
  }

  /** A sequence is its prefix before `i` followed by the rest. */
  lemma PrefixThenRest<T>(s: seq<T>, i: nat)
    requires i <= |s|
    ensures s[..i] + s[i..] == s
  {
  }

  /** Lines appended after lines appended after `lines`, as one append. */
  lemma AppendAfterAppend<T>(lines: seq<T>, done: seq<T>, more: seq<T>, before: seq<T>, after: seq<T>)
    requires before == lines + done && after == before + more
    ensures after == lines + (done + more)
  {
  }

  /** A prefix that extends `a` by one element starts with `a`. */
  lemma PrefixShorter<T>(r: seq<T>, a: seq<T>, x: T)
    requires |r| >= |a| + 1 && r[..|a| + 1] == a + [x]
    ensures r[..|a|] == a
  {
    assert r[..|a|] == r[..|a| + 1][..|a|];
  }

  /** A prefix followed by the character after it is again a prefix. */
  lemma PrefixThenChar(s: string, p: string, c: char)
    requires |p| < |s| && s[..|p|] == p && s[|p|] == c
    ensures s[..|p| + 1] == p + [c]
  {
  }

  /** A text cut at three positions, each cut character kept on its own. */
  lemma CutThrice(s: string, a: nat, b: nat, c: nat)
    requires a < b < c < |s|
    ensures s == s[..a] + [s[a]] + s[a + 1..b] + [s[b]] + s[b + 1..c] + [s[c]] + s[c + 1..]
  {
  }

  /** The first of four pieces put end to end, then the other three. */
  lemma FirstOfFour<T>(a: seq<T>, b: seq<T>, c: seq<T>, d: seq<T>)
    ensures a + b + c + d == a + (b + c + d)
  {
  }

  /** The first of seven pieces put end to end, then the other six. */
  lemma FirstOfSeven(a: string, b: string, c: string, d: string, e: string, f: string, g: string)
    ensures a + b + c + d + e + f + g == a + (b + c + d + e + f + g)
  {
  }

  /** Four parts joined: each separator sits between two neighbours. */
  lemma JoinFour(a: string, b: string, c: string, d: string, sep: string)
    ensures Join([a, b, c, d], sep) == a + sep + b + sep + c + sep + d
  {
    var parts := [a, b, c, d];
    assert parts[1..] == [b, c, d] && parts[1..][1..] == [c, d] && parts[1..][1..][1..] == [d];
    var cd := c + sep + d;
    assert Join([c, d], sep) == cd;
    assert Join([b, c, d], sep) == b + sep + cd;
    assert Join(parts, sep) == a + sep + (b + sep + cd);
    assert b + sep + cd == b + sep + c + sep + d;
  }

  /** `sep.join(parts)` starts with the first part. */
  lemma JoinStartsWith(parts: seq<string>, sep: string)
    requires |parts| >= 1
    ensures |parts[0]| <= |Join(parts, sep)| && Join(parts, sep)[..|parts[0]|] == parts[0]
  {
    if |parts| > 1 {
      var rest := Join(parts[1..], sep);
      assert Join(parts, sep) == parts[0] + sep + rest;
      assert (parts[0] + sep + rest)[..|parts[0]|] == parts[0];
    }
  }

  /** With two parts or more, the joined text opens with the first part and a separator. */
  lemma JoinOpens(parts: seq<string>, sep: string)
    requires |parts| >= 2
    ensures |parts[0] + sep| <= |Join(parts, sep)| && Join(parts, sep)[..|parts[0] + sep|] == parts[0] + sep
  {
    var rest := Join(parts[1..], sep);
    assert Join(parts, sep) == (parts[0] + sep) + rest;
  }

  /** Appending a tail keeps a prefix, and the tail ends the result. */
  lemma PrefixAndTail<T>(s: seq<T>, head: seq<T>, tail: seq<T>)
    requires |head| <= |s| && s[..|head|] == head
    ensures (s + tail)[..|head|] == head && (s + tail)[|s + tail| - |tail|..] == tail
  {
  }

  /** A character in `sep.join(parts)` comes from `sep` or from one of the parts. */
  lemma {:induction false} JoinChars(parts: seq<string>, sep: string, ch: char)
    requires ch !in sep && forall k :: 0 <= k < |parts| ==> ch !in parts[k]
    ensures ch !in Join(parts, sep)
    decreases |parts|
  {
    if |parts| > 1 {
      JoinChars(parts[1..], sep, ch);
    }
  }

  /** Length of the longest prefix of `s` without whitespace. */
  function WordLength(s: string): (n: nat)
    ensures n <= |s|
    ensures forall k :: 0 <= k < n ==> !IsSpace(s[k])
    ensures n < |s| ==> IsSpace(s[n])
  {
    if |s| == 0 || IsSpace(s[0]) then 0 else 1 + WordLength(s[1..])
  }

  /** `s.split()`: the maximal runs of non-whitespace characters, in order. */
  function SplitWhitespace(s: string): (words: seq<string>)
    ensures forall k :: 0 <= k < |words| ==> words[k] != [] && forall ch :: ch in words[k] ==> !IsSpace(ch)
    decreases |s|
  {
    if |s| == 0 then []
    else if IsSpace(s[0]) then SplitWhitespace(s[1..])
    else
      var n := WordLength(s);
      [s[..n]] + SplitWhitespace(s[n..])
  }

  /** A word followed by whitespace (or by nothing) is the first word `split()` finds. */
  lemma SplitWhitespaceWord(w: string, rest: string)
    requires w != [] && forall k :: 0 <= k < |w| ==> !IsSpace(w[k])
    requires rest != [] ==> IsSpace(rest[0])
    ensures SplitWhitespace(w + rest) == [w] + SplitWhitespace(rest)
  {
    WordLengthOf(w, rest);
    assert (w + rest)[..|w|] == w && (w + rest)[|w|..] == rest;
  }

  lemma {:induction false} WordLengthOf(w: string, rest: string)
    requires forall k :: 0 <= k < |w| ==> !IsSpace(w[k])
    requires rest != [] ==> IsSpace(rest[0])
    ensures WordLength(w + rest) == |w|
    decreases |w|
  {
    if |w| == 0 {
      assert w + rest == rest;
    } else {
      assert (w + rest)[1..] == w[1..] + rest;
      WordLengthOf(w[1..], rest);
    }
  }

  /** A word and a space: the word is the first piece and the rest is split on its own. */
  lemma SplitWhitespaceWordThen(w: string, rest: string)
    requires w != [] && forall k :: 0 <= k < |w| ==> !IsSpace(w[k])
    ensures SplitWhitespace(w + " " + rest) == [w] + SplitWhitespace(rest)
  {
    assert w + " " + rest == w + (" " + rest);
    SplitWhitespaceWord(w, " " + rest);
    assert (" " + rest)[1..] == rest;
  }

  /** `"a b c".split() == ["a", "b", "c"]` for any three words. */
  lemma SplitWhitespaceThree(a: string, b: string, c: string)
    requires a != [] && forall k :: 0 <= k < |a| ==> !IsSpace(a[k])
    requires b != [] && forall k :: 0 <= k < |b| ==> !IsSpace(b[k])
    requires c != [] && forall k :: 0 <= k < |c| ==> !IsSpace(c[k])
    ensures SplitWhitespace(a + " " + b + " " + c) == [a, b, c]
  {
    var bc := b + " " + c;
    assert a + " " + b + " " + c == a + " " + bc;
    SplitWhitespaceWordThen(a, bc);
    SplitWhitespaceWordThen(b, c);
    SplitWhitespaceWord(c, "");
    assert c + "" == c;
  }

  /** `" ".join(words).split() == words` for words that are non-empty and hold no
      whitespace, which every word `split()` produces is. */
  lemma {:induction false} SplitWhitespaceJoin(words: seq<string>)
    requires forall k :: 0 <= k < |words| ==> words[k] != [] && forall ch :: ch in words[k] ==> !IsSpace(ch)
    ensures SplitWhitespace(Join(words, " ")) == words
    decreases |words|
  {
    if |words| == 1 {
      SplitWhitespaceWord(words[0], "");
      assert words[0] + "" == words[0];
    } else if |words| > 1 {
      SplitWhitespaceJoin(words[1..]);
      SplitWhitespaceWordThen(words[0], Join(words[1..], " "));
      assert [words[0]] + words[1..] == words;
    }
  }

  /** Words joined by single spaces start with the first word's first character and end
      with the last word's last character. */
  lemma {:induction false} JoinedWordsEnds(words: seq<string>)
    requires |words| >= 1
    requires forall k :: 0 <= k < |words| ==> words[k] != []
    ensures Join(words, " ") != [] && Join(words, " ")[0] == words[0][0]
    ensures Join(words, " ")[|Join(words, " ")| - 1] == words[|words| - 1][|words[|words| - 1]| - 1]
    decreases |words|
  {
    if |words| > 1 {
      JoinedWordsEnds(words[1..]);
      var j := Join(words, " ");
      var rest := Join(words[1..], " ");
      assert j == words[0] + " " + rest;
      assert j[|j| - 1] == rest[|rest| - 1];
    }
  }

  /** Words joined by single spaces are their own `strip()`. */
  lemma JoinedWordsStrip(words: seq<string>)
    requires |words| >= 1
    requires forall k :: 0 <= k < |words| ==> words[k] != [] && forall ch :: ch in words[k] ==> !IsSpace(ch)
    ensures Join(words, " ") != [] && Join(words, " ")[0] == words[0][0]
    ensures Join(words, " ")[|Join(words, " ")| - 1] == words[|words| - 1][|words[|words| - 1]| - 1]
    ensures Strip(Join(words, " ")) == Join(words, " ")
  {
    JoinedWordsEnds(words);
    var j := Join(words, " ");
    assert words[0][0] in words[0];
    var last := words[|words| - 1];
    assert last[|last| - 1] in last;
    StripSpacesBefore("", j);
    assert "" + j == j;
  }

  function TrimLeft(s: string, drop: char -> bool): (r: string)
    ensures |r| <= |s| && r == s[|s| - |r|..]
    ensures r != [] ==> !drop(r[0])
    ensures forall k :: 0 <= k < |s| - |r| ==> drop(s[k])
  {
    if |s| > 0 && drop(s[0]) then TrimLeft(s[1..], drop) else s
  }

  function TrimRight(s: string, drop: char -> bool): (r: string)
    ensures |r| <= |s| && r == s[..|r|]
    ensures r != [] ==> !drop(r[|r| - 1])
    ensures forall k :: |r| <= k < |s| ==> drop(s[k])
  {
    if |s| > 0 && drop(s[|s| - 1]) then TrimRight(s[..|s| - 1], drop) else s
  }

  /** `s.strip()` */
  function Strip(s: string): (r: string)
    ensures r != [] ==> !IsSpace(r[0]) && !IsSpace(r[|r| - 1])
  {
    TrimRight(TrimLeft(s, IsSpace), IsSpace)
  }

  /** Text that already starts and ends with non-whitespace is its own `strip()`, and
      whitespace in front of it is all `strip()` removes. */
  lemma {:induction false} StripSpacesBefore(pad: string, t: string)
    requires t != [] && !IsSpace(t[0]) && !IsSpace(t[|t| - 1])
    requires forall k :: 0 <= k < |pad| ==> IsSpace(pad[k])
    ensures Strip(pad + t) == t
    decreases |pad|
  {
    if |pad| == 0 {
      assert pad + t == t;
    } else {
      assert (pad + t)[1..] == pad[1..] + t;
      StripSpacesBefore(pad[1..], t);
    }
  }

  /** Whitespace after text that ends with non-whitespace is all `strip()` removes. */
  lemma {:induction false} StripSpacesAfter(t: string, pad: string)
    requires t != [] && !IsSpace(t[0]) && !IsSpace(t[|t| - 1])
    requires forall k :: 0 <= k < |pad| ==> IsSpace(pad[k])
    ensures Strip(t + pad) == t
    decreases |pad|
  {
    assert TrimLeft(t + pad, IsSpace) == t + pad;
    if |pad| == 0 {
      assert t + pad == t;
    } else {
      var shorter := t + pad[..|pad| - 1];
      assert (t + pad)[..|t + pad| - 1] == shorter;
      StripSpacesAfter(t, pad[..|pad| - 1]);
      assert TrimLeft(shorter, IsSpace) == shorter;
    }
  }

  /** `s.strip(chars)` */
  function StripChars(s: string, chars: set<char>): (r: string)
    ensures r != [] ==> r[0] !in chars && r[|r| - 1] !in chars
  {
    TrimRight(TrimLeft(s, c => c in chars), c => c in chars)
  }

  /** Stripping keeps only characters the text already held. */
  lemma StripAvoids(s: string, chars: set<char>, ch: char)
    requires ch !in s
    ensures ch !in Strip(s) && ch !in StripChars(s, chars)
  {
    var left := TrimLeft(s, IsSpace);
    assert ch !in left;
    var braceless := TrimLeft(s, c => c in chars);
    assert ch !in braceless;
  }

  /** Text that neither starts nor ends with one of `chars` is its own `strip(chars)`. */
  lemma StripCharsKeeps(s: string, chars: set<char>)
    requires s != [] && s[0] !in chars && s[|s| - 1] !in chars
    ensures StripChars(s, chars) == s
  {
  }

  /** `("(" + t + ")").strip("()") == t` when `t` neither starts nor ends with a parenthesis. */
  lemma StripParens(t: string)
    requires t != [] ==> t[0] !in {'(', ')'} && t[|t| - 1] !in {'(', ')'}
    ensures StripChars("(" + t + ")", {'(', ')'}) == t
  {
    StripBracketed('(', t, ')', {'(', ')'});
  }

  /** Stripping `chars` from a text set between two of them gives the text back when it
      neither starts nor ends with one. */
  lemma StripBracketed(a: char, t: string, b: char, chars: set<char>)
    requires a in chars && b in chars
    requires t != [] ==> t[0] !in chars && t[|t| - 1] !in chars
    ensures StripChars([a] + t + [b], chars) == t
  {
    var s := [a] + t + [b];
    assert s[1..] == t + [b];
    if t == [] {
      assert (t + [b])[1..] == [];
    } else {
      assert (t + [b])[0] == t[0];
      assert (t + [b])[..|t|] == t;
    }
  }

  function DigitChar(d: nat): (c: char)
    requires d < 10
    ensures IsDigit(c)
  {
    ['0', '1', '2', '3', '4', '5', '6', '7', '8', '9'][d]
  }

  /** `str(n)` for a non-negative integer: its decimal digits, no leading zero. */
  function NatToString(n: nat): (s: string)
    ensures |s| >= 1 && forall k :: 0 <= k < |s| ==> IsDigit(s[k])
    ensures |s| > 1 ==> s[0] != '0'
    decreases n
  {
    if n < 10 then [DigitChar(n)] else NatToString(n / 10) + [DigitChar(n % 10)]
  }

  /** Reads a run of decimal digits back into a number: the partner of NatToString. */
  function DigitsValue(s: string): nat
    requires forall k :: 0 <= k < |s| ==> IsDigit(s[k])
  {
    if |s| == 0 then 0 else 10 * DigitsValue(s[..|s| - 1]) + DigitValue(s[|s| - 1])
  }

  function DigitValue(c: char): (d: nat)
    requires IsDigit(c)
    ensures d < 10 && DigitChar(d) == c
  {
    (c as int - '0' as int) as nat
  }

  lemma {:induction false} NatToStringRoundTrip(n: nat)
    ensures DigitsValue(NatToString(n)) == n
    decreases n
  {
    if n >= 10 {
      NatToStringRoundTrip(n / 10);
      var s := NatToString(n);
      assert s[..|s| - 1] == NatToString(n / 10);
      DigitRoundTrip(n % 10);
      assert s[|s| - 1] == DigitChar(n % 10);
    } else {
      DigitRoundTrip(n);
    }
  }

  /** A digit's character reads back as the digit. */
  lemma DigitRoundTrip(d: nat)
    requires d < 10
    ensures DigitValue(DigitChar(d)) == d
  {
  }

  /** The character `c.lower()` gives for an ASCII upper-case letter; others unchanged. */
  function LowerAscii(c: char): char {
    if 'A' <= c <= 'Z' then (c as int + 32) as char else c
  }

  /** `n` copies of a space: Python's `" " * n`, which is empty for every `n <= 0`. */
  function Spaces(n: int): (r: string)
    ensures |r| == if n <= 0 then 0 else n
    ensures forall k :: 0 <= k < |r| ==> r[k] == ' '
    decreases if n <= 0 then 0 else n
  {
    if n <= 0 then "" else [' '] + Spaces(n - 1)
  }

  /** The number of occurrences of `c` in `s`. */
  function Count(s: string, c: char): nat {
    if |s| == 0 then 0 else (if s[0] == c then 1 else 0) + Count(s[1..], c)
  }

  lemma {:induction false} CountAppend(a: string, b: string, c: char)
    ensures Count(a + b, c) == Count(a, c) + Count(b, c)
    decreases |a|
  {
    if |a| == 0 {
      assert a + b == b;
    } else {
      assert (a + b)[1..] == a[1..] + b;
      CountAppend(a[1..], b, c);
    }
  }

  /** Counting over a longer prefix never gives less, and a run of `k` copies of `c`
      adds exactly `k`. */
  lemma CountPrefix(s: string, c: char, i: nat, j: nat)
    requires i <= j <= |s|
    ensures Count(s[..i], c) <= Count(s[..j], c)
    ensures (forall k :: i <= k < j ==> s[k] == c) ==> Count(s[..j], c) == Count(s[..i], c) + (j - i)
  {
    assert s[..j] == s[..i] + s[i..j];
    CountAppend(s[..i], s[i..j], c);
    if forall k :: i <= k < j ==> s[k] == c {
      CountRun(s[i..j], c);
    }
  }

  lemma {:induction false} CountRun(s: string, c: char)
    requires forall k :: 0 <= k < |s| ==> s[k] == c
    ensures Count(s, c) == |s|
    decreases |s|
  {
    if |s| > 0 {
      CountRun(s[1..], c);
    }
  }

  /** The characters `str.splitlines` breaks at. */
  predicate IsLineBreak(c: char) {
    c == '\n' || c == '\r' || c == '\U{000B}' || c == '\U{000C}' || ('\U{001C}' <= c <= '\U{001E}')
    || c == '\U{0085}' || c == '\U{2028}' || c == '\U{2029}'
  }

  /** `s.splitlines()`: lines without their terminators; `\r\n` is one terminator and a
      final terminator opens no extra line. */
  function SplitLines(s: string): (lines: seq<string>)
    ensures |s| > 0 ==> |lines| > 0
    ensures forall k :: 0 <= k < |lines| ==> forall ch :: ch in lines[k] ==> !IsLineBreak(ch)
    decreases |s|
  {
    if |s| == 0 then []
    else if IsLineBreak(s[0]) then
      var rest := if s[0] == '\r' && |s| > 1 && s[1] == '\n' then s[2..] else s[1..];
      [""] + SplitLines(rest)
    else
      var r := SplitLines(s[1..]);
      if |r| == 0 then [[s[0]]] else [[s[0]] + r[0]] + r[1..]
  }

  /** Every `\n` before position `p` ends one line, and the line holding `p` is one more:
      a position reached after `n` newlines lies on a line `splitlines` produces. */
  lemma {:induction false} SplitLinesCoversPosition(s: string, p: nat)
    requires p < |s|
    ensures |SplitLines(s)| >= Count(s[..p], '\n') + 1
    decreases |s|
  {
    if IsLineBreak(s[0]) {
      if s[0] == '\r' && |s| > 1 && s[1] == '\n' {
        if p >= 2 {
          assert s[..p] == s[..2] + s[2..][..p - 2];
          CountAppend(s[..2], s[2..][..p - 2], '\n');
          SplitLinesCoversPosition(s[2..], p - 2);
        } else {
          assert s[..p] == [] || s[..p] == ['\r'];
        }
      } else if p >= 1 {
        assert s[..p] == [s[0]] + s[1..][..p - 1];
        CountAppend([s[0]], s[1..][..p - 1], '\n');
        SplitLinesCoversPosition(s[1..], p - 1);
      }
    } else if p >= 1 {
      assert s[..p] == [s[0]] + s[1..][..p - 1];
      CountAppend([s[0]], s[1..][..p - 1], '\n');
      SplitLinesCoversPosition(s[1..], p - 1);
    }
  }
}

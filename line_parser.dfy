/** The line-oriented prototype parser (src/parser.py, class `Parser`): what each `_parse_*`
    helper makes of one trimmed line, the block state machine `parse` runs over the lines,
    and class `Parser`, whose methods append to its warning list in place and are proved
    against those functions. The regular expressions themselves are module LinePatterns. */
module LineParser {
  import opened Wrappers
  import opened Text
  import opened LineAst
  import opened LinePatterns

  // ---------------------------------------------------------------------------------------
  // Exceptions and diagnostics
  // ---------------------------------------------------------------------------------------

  /** The Python exception classes a line can raise. */
  datatype ErrorKind = SyntaxError | ValueError

  datatype Raised = Raised(kind: ErrorKind, message: string)

  /** `type(e).__name__` */
  function KindName(k: ErrorKind): string {
    match k
    case SyntaxError => "SyntaxError"
    case ValueError => "ValueError"
  }

  /** What `key, value = attr.split(':', 1)` raises for a piece without a colon. */
  const UnpackError: Raised := Raised(ValueError, "not enough values to unpack (expected 2, got 1)")

  /** The three lines every diagnostic has: the location, the trimmed line indented by four
      spaces, then `last`. */
  function Diagnostic(path: string, n: nat, line: string, last: string): string {
    "File \"" + path + "\", line " + NatToString(n) + "\n    " + line + "\n" + last
  }

  /** `_add_warning`'s text. */
  function WarningText(path: string, n: nat, line: string, message: string): string {
    Diagnostic(path, n, line, "Warning: " + message)
  }

  /** The text of the exception `parse` raises in place of `e`. */
  function ErrorText(path: string, n: nat, line: string, e: Raised): string {
    Diagnostic(path, n, line, KindName(e.kind) + ": " + e.message)
  }

  /** Cut at its line feeds, a diagnostic gives back the location, the indented line and
      its last line. */
  lemma DiagnosticLines(path: string, n: nat, line: string, last: string)
    requires '\n' !in path && '\n' !in line && '\n' !in last
    ensures Split(Diagnostic(path, n, line, last), '\n')
            == ["File \"" + path + "\", line " + NatToString(n), "    " + line, last]
  {
    var number := NatToString(n);
    var head := "File \"" + path + "\", line " + number;
    var middle := "    " + line;
    assert '\n' !in number by {
      assert forall k :: 0 <= k < |number| ==> IsDigit(number[k]);
    }
    assert '\n' !in head;
    assert '\n' !in middle;
    assert Diagnostic(path, n, line, last) == head + ['\n'] + (middle + ['\n'] + last);
    SplitAtSeparator(head, '\n', middle + ['\n'] + last);
    SplitAtSeparator(middle, '\n', last);
    SplitNoSeparator(last, '\n');
  }

  /** What one `_parse_*` call yields: its value or the exception it raises, and the
      warnings it appends on the way (also when it raises afterwards). */
  datatype Entry<T> = Entry(value: Result<T, Raised>, warnings: seq<string>)

  // ---------------------------------------------------------------------------------------
  // `_parse_meta_line`
  // ---------------------------------------------------------------------------------------

  /** `_parse_meta_line(line, key, ...)`: the quoted value, with a warning when it is empty;
      `Invalid <key> format` when the pattern does not match. */
  function MetaEntry(line: string, key: string, path: string, n: nat): (e: Entry<string>)
    ensures e.value.Success? ==> IsPlain(e.value.value) && OpensMeta(line, key)
    ensures e.value.Success? ==> e.warnings == if e.value.value == "" then [WarningText(path, n, line, "Meta value is empty")] else []
    ensures e.value.Failure? ==> e.value.error == Raised(SyntaxError, "Invalid " + key + " format") && e.warnings == []
  {
    match MetaValue(line, key)
    case None => Entry(Failure(Raised(SyntaxError, "Invalid " + key + " format")), [])
    case Some(v) => Entry(Success(v), if v == "" then [WarningText(path, n, line, "Meta value is empty")] else [])
  }

  /** `key: 'value'` yields `value`, warned about exactly when it is empty. */
  lemma MetaEntryOfWritten(key: string, v: string, path: string, n: nat)
    requires IsPlain(v)
    ensures MetaEntry(key + ": '" + v + "'", key, path, n).value == Success(v)
    ensures |MetaEntry(key + ": '" + v + "'", key, path, n).warnings| == if v == "" then 1 else 0
  {
    assert forall k {:trigger IsSpace(" "[k])} :: 0 <= k < |" "| ==> IsSpace(" "[k]);
    MetaValueOfWritten(key, " ", '\'', v, '\'', "");
    assert key + ":" + " " + ['\''] + v + ['\''] + "" == key + ": '" + v + "'";
  }

  // ---------------------------------------------------------------------------------------
  // `_parse_attributes`
  // ---------------------------------------------------------------------------------------

  /** `strip('{}')` */
  const Braces: set<char> := {'{', '}'}

  /** One `key: value` piece: split at its first colon, the key trimmed, the value trimmed
      and then stripped of quote characters. */
  function AttributeOf(piece: string): (r: Result<(string, string), Raised>)
    ensures r.Failure? <==> ':' !in piece
    ensures r.Failure? ==> r.error == UnpackError
  {
    var parts := SplitOnce(piece, ':');
    if |parts| < 2 then Failure(UnpackError)
    else Success((Strip(parts[0]), StripChars(Strip(parts[1]), Quotes)))
  }

  /** What each piece of an attribute block reads as, in order. */
  function PairsOf(pieces: seq<string>): (rs: seq<Result<(string, string), Raised>>)
    ensures |rs| == |pieces|
    ensures forall k :: 0 <= k < |pieces| ==> rs[k] == AttributeOf(pieces[k])
  {
    seq(|pieces|, k requires 0 <= k < |pieces| => AttributeOf(pieces[k]))
  }

  /** The loop of `_parse_attributes`: each pair stores its value under its key, in order,
      and the first piece that raises ends the loop with its exception. */
  function StoreAll(rs: seq<Result<(string, string), Raised>>): (r: Result<map<string, string>, Raised>)
    ensures r.Failure? ==> Failure(r.error) in rs
  {
    if |rs| == 0 then Success(map[])
    else
      match StoreAll(rs[..|rs| - 1])
      case Failure(e) => Failure(e)
      case Success(m) =>
        match rs[|rs| - 1]
        case Failure(e) => Failure(e)
        case Success(kv) => Success(m[kv.0 := kv.1])
  }

  /** `_parse_attributes(attr_string)`: nothing for an empty string; otherwise the text
      without its outer braces and whitespace, split at commas. */
  function AttributesOf(attrString: string): (r: Result<map<string, string>, Raised>)
    ensures attrString == "" ==> r == Success(map[])
  {
    if attrString == "" then Success(map[])
    else StoreAll(PairsOf(Split(Strip(StripChars(attrString, Braces)), ',')))
  }

  /** The loop raises exactly when some piece raises. */
  lemma {:induction false} StoreAllFails(rs: seq<Result<(string, string), Raised>>)
    ensures StoreAll(rs).Failure? <==> exists k :: 0 <= k < |rs| && rs[k].Failure?
    decreases |rs|
  {
    if |rs| > 0 {
      var last := |rs| - 1;
      var init := rs[..last];
      StoreAllFails(init);
      if StoreAll(init).Failure? {
        var k :| 0 <= k < |init| && init[k].Failure?;
        assert rs[k] == init[k];
      } else if rs[last].Success? {
        forall k | 0 <= k < |rs|
          ensures rs[k].Success?
        {
          if k < last {
            assert rs[k] == init[k];
          }
        }
      }
    }
  }

  /** `rs[i]` stores a value under `key`. */
  predicate Stores(rs: seq<Result<(string, string), Raised>>, i: int, key: string)
    requires 0 <= i < |rs|
  {
    rs[i].Success? && rs[i].value.0 == key
  }

  /** A stored dictionary holds exactly the keys of its pairs, each with the value of the
      last pair that names it. */
  lemma {:induction false} StoreAllValues(rs: seq<Result<(string, string), Raised>>, m: map<string, string>)
    requires StoreAll(rs) == Success(m)
    ensures forall key :: key in m <==> exists i :: 0 <= i < |rs| && Stores(rs, i, key)
    ensures forall i, key :: 0 <= i < |rs| && Stores(rs, i, key)
                             && (forall j :: i < j < |rs| ==> !Stores(rs, j, key))
                             ==> m[key] == rs[i].value.1
    decreases |rs|
  {
    if |rs| > 0 {
      var last := |rs| - 1;
      var init := rs[..last];
      var m' := StoreAll(init).value;
      var kv := rs[last].value;
      assert m == m'[kv.0 := kv.1];
      StoreAllValues(init, m');
      forall key
        ensures key in m <==> exists i :: 0 <= i < |rs| && Stores(rs, i, key)
      {
        if key in m && key != kv.0 {
          var i :| 0 <= i < |init| && Stores(init, i, key);
          assert Stores(rs, i, key);
        }
        if key == kv.0 {
          assert Stores(rs, last, key);
        }
        if exists i :: 0 <= i < |rs| && Stores(rs, i, key) {
          var i :| 0 <= i < |rs| && Stores(rs, i, key);
          if i < last {
            assert Stores(init, i, key);
          }
        }
      }
      forall i, key | 0 <= i < |rs| && Stores(rs, i, key) && (forall j :: i < j < |rs| ==> !Stores(rs, j, key))
        ensures m[key] == rs[i].value.1
      {
        if i < last {
          assert !Stores(rs, last, key);
          assert Stores(init, i, key);
          forall j | i < j < |init|
            ensures !Stores(init, j, key)
          {
            assert !Stores(rs, j, key);
          }
        }
      }
    }
  }

  /** A block with no colon at all, such as `{ }`, raises instead of giving an empty
      dictionary. */
  lemma AttributesWithoutColon(attrString: string)
    requires attrString != "" && ':' !in attrString
    ensures AttributesOf(attrString) == Failure(UnpackError)
  {
    var braceless := StripChars(attrString, Braces);
    StripAvoids(attrString, Braces, ':');
    StripAvoids(braceless, Braces, ':');
    var trimmed := Strip(braceless);
    SplitAvoids(trimmed, ',', ':');
    StoreAllUnpack(PairsOf(Split(trimmed, ',')));
  }

  /** Pieces that all raise the unpacking error make the loop raise it. */
  lemma StoreAllUnpack(rs: seq<Result<(string, string), Raised>>)
    requires |rs| >= 1 && forall k :: 0 <= k < |rs| ==> rs[k].Failure? && rs[k].error == UnpackError
    ensures StoreAll(rs) == Failure(UnpackError)
  {
    StoreAllFails(rs);
    assert rs[0].Failure?;
  }

  /** No piece of `s.split(c)` holds a character `s` does not hold. */
  lemma {:induction false} SplitAvoids(s: string, c: char, ch: char)
    requires ch !in s
    ensures forall k :: 0 <= k < |Split(s, c)| ==> ch !in Split(s, c)[k]
    decreases |s|
  {
    if |s| > 0 {
      SplitAvoids(s[1..], c, ch);
    }
  }

  /** The dictionary a sequence of `key: value` pairs describes, a later key replacing an
      earlier one. */
  function MapOf(kvs: seq<(string, string)>): (m: map<string, string>)
    ensures forall k :: 0 <= k < |kvs| ==> kvs[k].0 in m
  {
    if |kvs| == 0 then map[] else MapOf(kvs[..|kvs| - 1])[kvs[|kvs| - 1].0 := kvs[|kvs| - 1].1]
  }

  /** The `name: 'label'` texts of `ps`, in order. */
  function NamedTexts(ps: seq<(string, string)>): (texts: seq<string>)
    ensures |texts| == |ps|
  {
    seq(|ps|, k requires 0 <= k < |ps| => NamedText(ps[k].0, ps[k].1))
  }

  /** How a parameter list or an attribute block is written: `name: 'label', ...`. */
  function NamedList(ps: seq<(string, string)>): string {
    Join(NamedTexts(ps), ", ")
  }

  /** A pair `NamedList` can write so that `split(',')` finds it again. */
  predicate Listable(p: (string, string)) {
    IsName(p.0) && ',' !in p.1
  }

  /** A value the quote stripping gives back unchanged: no quote at either end. */
  predicate QuoteFree(v: string) {
    v == "" || (!IsQuote(v[0]) && !IsQuote(v[|v| - 1]))
  }

  /** `split(',')` cuts a written list into its texts, each after the first led by a space. */
  lemma ListPieces(ps: seq<(string, string)>)
    requires |ps| >= 1 && forall k :: 0 <= k < |ps| ==> Listable(ps[k])
    ensures var pieces := Split(NamedList(ps), ',');
            |pieces| == |ps|
            && forall k :: 0 <= k < |ps| ==> pieces[k] == (if k == 0 then "" else " ") + NamedText(ps[k].0, ps[k].1)
  {
    var texts := NamedTexts(ps);
    ListSplits(ps);
    var pieces := Split(NamedList(ps), ',');
    forall k | 0 <= k < |ps|
      ensures pieces[k] == (if k == 0 then "" else " ") + NamedText(ps[k].0, ps[k].1)
    {
      if k == 0 {
        assert "" + texts[0] == texts[0];
      } else {
        assert pieces[k] == SpaceLed(texts[1..])[k - 1];
      }
    }
  }

  lemma ListSplits(ps: seq<(string, string)>)
    requires |ps| >= 1 && forall k :: 0 <= k < |ps| ==> Listable(ps[k])
    ensures Split(NamedList(ps), ',') == [NamedTexts(ps)[0]] + SpaceLed(NamedTexts(ps)[1..])
  {
    var texts := NamedTexts(ps);
    forall k | 0 <= k < |texts|
      ensures ',' !in texts[k]
    {
      NameAvoids(ps[k].0, ',');
    }
    JoinCommaSpace(texts);
  }

  /** A name holds no character outside the word characters. */
  lemma NameAvoids(name: string, ch: char)
    requires IsName(name) && !IsWordChar(ch)
    ensures ch !in name && name != [] && !IsSpace(name[0]) && !IsSpace(name[|name| - 1])
  {
    assert IsWordChar(name[0]) && IsWordChar(name[|name| - 1]);
  }

  /** A written piece, with or without its leading space, trims back to its text. */
  lemma StripPiece(pad: string, name: string, labelText: string)
    requires pad == "" || pad == " "
    requires IsName(name)
    ensures Strip(pad + NamedText(name, labelText)) == NamedText(name, labelText)
  {
    var t := NamedText(name, labelText);
    NameAvoids(name, ' ');
    assert t[0] == name[0] && t[|t| - 1] == '\'';
    StripSpacesBefore(pad, t);
  }

  /** A written attribute piece reads back as its key and value. */
  lemma AttributeOfWritten(pad: string, key: string, v: string)
    requires pad == "" || pad == " "
    requires IsName(key) && QuoteFree(v)
    ensures AttributeOf(pad + NamedText(key, v)) == Success((key, v))
  {
    var quoted := "'" + v + "'";
    AttributeSplit(pad, key, v);
    NameAvoids(key, ' ');
    StripSpacesBefore(pad, key);
    AttributeValue(v);
  }

  /** A written attribute piece is cut at the colon after its key. */
  lemma AttributeSplit(pad: string, key: string, v: string)
    requires pad == "" || pad == " "
    requires IsName(key)
    ensures SplitOnce(pad + NamedText(key, v), ':') == [pad + key, " '" + v + "'"]
  {
    NameAvoids(key, ':');
    assert pad + NamedText(key, v) == (pad + key) + [':'] + (" '" + v + "'");
    SplitOnceAt(pad + key, ':', " '" + v + "'");
  }

  /** The value part ` 'v'` of a written piece trims and unquotes to `v`. */
  lemma AttributeValue(v: string)
    requires QuoteFree(v)
    ensures StripChars(Strip(" '" + v + "'"), Quotes) == v
  {
    var quoted := "'" + v + "'";
    assert " '" + v + "'" == " " + quoted;
    StripSpacesBefore(" ", quoted);
    StripQuotesAround(v);
  }

  /** Stripping quote characters from `'v'` gives `v` back. */
  lemma StripQuotesAround(v: string)
    requires QuoteFree(v)
    ensures StripChars("'" + v + "'", Quotes) == v
  {
    var quoted := "'" + v + "'";
    assert quoted[1..] == v + "'";
    if v == "" {
      assert (v + "'")[1..] == "";
    } else {
      assert (v + "'")[..|v|] == v;
    }
  }

  /** Storing pairs that all succeed builds the dictionary of those pairs. */
  lemma {:induction false} StoreAllWritten(rs: seq<Result<(string, string), Raised>>, kvs: seq<(string, string)>)
    requires |rs| == |kvs|
    requires forall k :: 0 <= k < |kvs| ==> rs[k] == Success(kvs[k])
    ensures StoreAll(rs) == Success(MapOf(kvs))
    decreases |rs|
  {
    if |rs| > 0 {
      var last := |rs| - 1;
      StoreAllWritten(rs[..last], kvs[..last]);
    }
  }

  /** An attribute block written as `key: 'value', ...` reads back as the dictionary of
      those pairs, the last of two equal keys winning. */
  lemma AttributesOfWritten(kvs: seq<(string, string)>)
    requires forall k :: 0 <= k < |kvs| ==> Listable(kvs[k]) && QuoteFree(kvs[k].1)
    ensures AttributesOf(NamedList(kvs)) == Success(MapOf(kvs))
  {
    if |kvs| > 0 {
      ListTrimmed(kvs);
      StoredList(kvs);
    }
  }

  /** Storing the pieces of a written, non-empty list builds the dictionary of its pairs. */
  lemma StoredList(kvs: seq<(string, string)>)
    requires |kvs| >= 1 && forall k :: 0 <= k < |kvs| ==> Listable(kvs[k]) && QuoteFree(kvs[k].1)
    ensures StoreAll(PairsOf(Split(NamedList(kvs), ','))) == Success(MapOf(kvs))
  {
    var rs := PairsOf(Split(NamedList(kvs), ','));
    WrittenPairs(kvs, rs);
    StoreAllWritten(rs, kvs);
  }

  /** A written list has no braces and no whitespace at its ends to lose. */
  lemma ListTrimmed(kvs: seq<(string, string)>)
    requires |kvs| >= 1 && IsName(kvs[0].0)
    ensures Strip(StripChars(NamedList(kvs), Braces)) == NamedList(kvs)
  {
    var g := NamedList(kvs);
    ListEnds(kvs);
    assert IsWordChar(g[0]);
    StripCharsKeeps(g, Braces);
    NameAvoids(kvs[0].0, ' ');
    StripSpacesBefore("", g);
    assert "" + g == g;
  }

  /** Each piece of a written list reads back as its pair. */
  lemma WrittenPairs(kvs: seq<(string, string)>, rs: seq<Result<(string, string), Raised>>)
    requires |kvs| >= 1 && forall k :: 0 <= k < |kvs| ==> Listable(kvs[k]) && QuoteFree(kvs[k].1)
    requires rs == PairsOf(Split(NamedList(kvs), ','))
    ensures |rs| == |kvs| && forall k :: 0 <= k < |kvs| ==> rs[k] == Success(kvs[k])
  {
    ListPieces(kvs);
    var pieces := Split(NamedList(kvs), ',');
    forall k | 0 <= k < |kvs|
      ensures AttributeOf(pieces[k]) == Success(kvs[k])
    {
      AttributeOfWritten(if k == 0 then "" else " ", kvs[k].0, kvs[k].1);
    }
  }

  /** A written list starts with the first name's first character and ends with a quote. */
  lemma ListEnds(ps: seq<(string, string)>)
    requires |ps| >= 1 && IsName(ps[0].0)
    ensures var g := NamedList(ps); g != [] && g[0] == ps[0].0[0] && g[|g| - 1] == '\''
  {
    var texts := NamedTexts(ps);
    var last := |ps| - 1;
    var g := NamedList(ps);
    if |ps| > 1 {
      assert g == texts[0] + ", " + Join(texts[1..], ", ");
      assert texts[..last] + [texts[last]] == texts;
      JoinAppend(texts[..last], texts[last], ", ");
    }
  }

  /** `ch` appears nowhere in a list written from names and texts that avoid it. */
  lemma NamedListAvoids(ps: seq<(string, string)>, ch: char)
    requires !IsWordChar(ch) && ch != ',' && ch != ' ' && ch != ':' && ch != '\''
    requires forall k :: 0 <= k < |ps| ==> IsName(ps[k].0) && ch !in ps[k].1
    ensures ch !in NamedList(ps)
  {
    var texts := NamedTexts(ps);
    forall k | 0 <= k < |ps|
      ensures ch !in texts[k]
    {
      NameAvoids(ps[k].0, ch);
    }
    JoinChars(texts, ", ", ch);
  }

  // ---------------------------------------------------------------------------------------
  // `_parse_parameters`
  // ---------------------------------------------------------------------------------------

  /** What the parameter pattern makes of each piece, once trimmed. */
  function Matched(pieces: seq<string>): (rs: seq<Option<Parameter>>)
    ensures |rs| == |pieces|
    ensures forall k :: 0 <= k < |pieces| ==> rs[k] == MatchParameter(Strip(pieces[k]))
  {
    seq(|pieces|, k requires 0 <= k < |pieces| => MatchParameter(Strip(pieces[k])))
  }

  /** The loop of `_parse_parameters`: the matches, in order, with the pieces that do not
      match left out. */
  function Somes(rs: seq<Option<Parameter>>): (ps: seq<Parameter>)
    ensures |ps| <= |rs|
    ensures forall k :: 0 <= k < |ps| ==> Some(ps[k]) in rs
  {
    if |rs| == 0 then []
    else
      var init := Somes(rs[..|rs| - 1]);
      match rs[|rs| - 1]
      case None => init
      case Some(p) => init + [p]
  }

  /** `_parse_parameters(param_string)`: every comma-separated piece that matches
      `name: 'label'`, in order. */
  function ParametersOf(paramString: string): (ps: seq<Parameter>)
    ensures forall k :: 0 <= k < |ps| ==> IsName(ps[k].0) && '\n' !in ps[k].1
  {
    var rs := Matched(Split(paramString, ','));
    SomesGood(rs);
    Somes(rs)
  }

  lemma ParametersOfParts(paramString: string)
    ensures ParametersOf(paramString) == Somes(Matched(Split(paramString, ',')))
  {
  }

  /** Every parameter kept is one the pattern matched, so it has a name and a one-line label. */
  lemma SomesGood(rs: seq<Option<Parameter>>)
    requires forall j :: 0 <= j < |rs| && rs[j].Some? ==> IsName(rs[j].value.0) && '\n' !in rs[j].value.1
    ensures forall k :: 0 <= k < |Somes(rs)| ==> IsName(Somes(rs)[k].0) && '\n' !in Somes(rs)[k].1
  {
    var ps := Somes(rs);
    forall k | 0 <= k < |ps|
      ensures IsName(ps[k].0) && '\n' !in ps[k].1
    {
      assert Some(ps[k]) in rs;
      var j :| 0 <= j < |rs| && rs[j] == Some(ps[k]);
    }
  }

  /** When every piece matches, nothing is dropped. */
  lemma {:induction false} SomesAll(rs: seq<Option<Parameter>>, ps: seq<Parameter>)
    requires |rs| == |ps| && forall k :: 0 <= k < |rs| ==> rs[k] == Some(ps[k])
    ensures Somes(rs) == ps
    decreases |rs|
  {
    if |rs| > 0 {
      var last := |rs| - 1;
      SomesAll(rs[..last], ps[..last]);
      assert ps[..last] + [ps[last]] == ps;
    }
  }

  /** When no piece matches, the list is empty. */
  lemma {:induction false} SomesNone(rs: seq<Option<Parameter>>)
    requires forall k :: 0 <= k < |rs| ==> rs[k].None?
    ensures Somes(rs) == []
    decreases |rs|
  {
    if |rs| > 0 {
      SomesNone(rs[..|rs| - 1]);
    }
  }

  /** An empty parameter text gives no parameters. */
  lemma ParametersOfEmpty()
    ensures ParametersOf("") == []
  {
    var rs := Matched(Split("", ','));
    assert Strip("") == "";
    assert rs == [None];
    SomesNone(rs);
  }

  /** A parameter list written as `name: 'label', ...` reads back as exactly those
      parameters, in order; an empty list is written as nothing and reads as none. */
  lemma ParametersOfWritten(ps: seq<Parameter>)
    requires forall k :: 0 <= k < |ps| ==> Listable(ps[k]) && '\n' !in ps[k].1
    ensures ParametersOf(NamedList(ps)) == ps
  {
    if |ps| == 0 {
      ParametersOfEmpty();
    } else {
      ListPieces(ps);
      var pieces := Split(NamedList(ps), ',');
      var rs := Matched(pieces);
      forall k | 0 <= k < |ps|
        ensures rs[k] == Some(ps[k])
      {
        StripPiece(if k == 0 then "" else " ", ps[k].0, ps[k].1);
        MatchParameterOfWritten(ps[k]);
      }
      SomesAll(rs, ps);
    }
  }

  // ---------------------------------------------------------------------------------------
  // `_parse_type`
  // ---------------------------------------------------------------------------------------

  /** The warnings `_parse_type` adds: an empty label, then an empty description. */
  function TypeWarnings(path: string, n: nat, line: string, labelText: string, description: string): (ws: seq<string>)
    ensures |ws| == (if labelText == "" then 1 else 0) + (if description == "" then 1 else 0)
  {
    (if labelText == "" then [WarningText(path, n, line, "Label is empty for type.")] else [])
    + (if description == "" then [WarningText(path, n, line, "Description is empty for type.")] else [])
  }

  /** `_parse_type(line, ...)`: the term the type pattern describes, its attribute block
      read by `_parse_attributes`. The warnings are added before the block is read, so they
      stay even when the block raises. */
  function TypeEntry(line: string, path: string, n: nat): (e: Entry<Term>)
    ensures MatchType(line).None? ==> e.value == Failure(Raised(SyntaxError, "Invalid type format")) && e.warnings == []
    ensures MatchType(line).Some? ==>
              var m := MatchType(line).value;
              e.warnings == TypeWarnings(path, n, line, m.labelText, m.description)
              && (e.value.Success? ==> e.value.value.name == m.name && e.value.value.labelText == m.labelText
                                       && e.value.value.description == m.description)
    ensures e.value.Success? ==> IsName(e.value.value.name) && StartsWith(line, e.value.value.name + ":")
  {
    match MatchType(line)
    case None => Entry(Failure(Raised(SyntaxError, "Invalid type format")), [])
    case Some(m) =>
      var warnings := TypeWarnings(path, n, line, m.labelText, m.description);
      var attributes := if m.attributes.Some? then AttributesOf(m.attributes.value) else Success(map[]);
      PrefixThenChar(line, m.name, ':');
      match attributes
      case Failure(err) => Entry(Failure(err), warnings)
      case Success(a) => Entry(Success(Term(m.name, m.labelText, m.description, a)), warnings)
  }

  /** The text of a written attribute block: none, or `, {key: 'value', ...}`. */
  function BlockOf(block: Option<seq<(string, string)>>): Option<string> {
    match block
    case None => None
    case Some(kvs) => Some(NamedList(kvs))
  }

  /** A pair an attribute block can hold and give back. */
  predicate Storable(p: (string, string)) {
    Listable(p) && QuoteFree(p.1) && '\n' !in p.1
  }

  /** A type line written as `name: 'label', 'description'`, with or without a block
      `, {key: 'value', ...}`, reads back as that term, with one warning per empty text. */
  lemma TypeEntryOfWritten(name: string, labelText: string, description: string, block: Option<seq<(string, string)>>,
                           path: string, n: nat)
    requires IsName(name) && IsPlain(labelText) && IsPlain(description)
    requires block.Some? ==> forall k :: 0 <= k < |block.value| ==> Storable(block.value[k])
    ensures var e := TypeEntry(TypeLineText(name, labelText, description, BlockOf(block)), path, n);
            e.value == Success(Term(name, labelText, description, if block.Some? then MapOf(block.value) else map[]))
            && e.warnings == TypeWarnings(path, n, TypeLineText(name, labelText, description, BlockOf(block)), labelText, description)
  {
    if block.Some? {
      var kvs := block.value;
      assert '\n' !in NamedList(kvs) by {
        NamedListAvoids(kvs, '\n');
      }
      AttributesOfWritten(kvs);
    }
    MatchTypeOfWritten(name, labelText, description, BlockOf(block));
  }

  /** A non-empty block without a colon, such as `{ }`, makes the type line raise the
      unpacking ValueError, after its warnings. */
  lemma TypeEntryWithoutColon(name: string, labelText: string, description: string, inside: string, path: string, n: nat)
    requires IsName(name) && IsPlain(labelText) && IsPlain(description)
    requires inside != "" && ':' !in inside && '\n' !in inside
    ensures var e := TypeEntry(TypeLineText(name, labelText, description, Some(inside)), path, n);
            e.value == Failure(UnpackError)
            && |e.warnings| == (if labelText == "" then 1 else 0) + (if description == "" then 1 else 0)
  {
    MatchTypeOfWritten(name, labelText, description, Some(inside));
    AttributesWithoutColon(inside);
  }

  // ---------------------------------------------------------------------------------------
  // `_parse_function`
  // ---------------------------------------------------------------------------------------

  /** The line `_parse_function` matches: everything before the first `#`, trimmed. */
  function CommentCut(line: string): (cut: string)
    ensures '#' !in cut
  {
    var before := SplitOnce(line, '#')[0];
    var cut := Strip(before);
    assert forall ch :: ch in cut ==> ch in before by {
      var left := TrimLeft(before, IsSpace);
      assert forall ch :: ch in TrimRight(left, IsSpace) ==> ch in left;
    }
    cut
  }

  /** The warnings `_parse_function` adds, about the cut line: an empty label, then an
      empty output label. */
  function FunctionWarnings(path: string, n: nat, cut: string, labelText: string, outputLabel: string): (ws: seq<string>)
    ensures |ws| == (if labelText == "" then 1 else 0) + (if outputLabel == "" then 1 else 0)
  {
    (if labelText == "" then [WarningText(path, n, cut, "Label is empty")] else [])
    + (if outputLabel == "" then [WarningText(path, n, cut, "Output label is empty")] else [])
  }

  /** `_parse_function(line, ...)`: the function the pattern finds in the comment-free line,
      its parameter text read by `_parse_parameters`. */
  function FunctionEntry(line: string, path: string, n: nat): (e: Entry<Function>)
    ensures MatchFunction(CommentCut(line)).None? ==> e.value == Failure(Raised(SyntaxError, "Invalid function format")) && e.warnings == []
    ensures MatchFunction(CommentCut(line)).Some? ==>
              var m := MatchFunction(CommentCut(line)).value;
              e.warnings == FunctionWarnings(path, n, CommentCut(line), m.labelText, m.outputLabel)
              && e.value == Success(Function(m.name, m.labelText, ParametersOf(m.parameters), (m.outputType, m.outputLabel)))
    ensures e.value.Success? ==> IsName(e.value.value.name) && IsName(e.value.value.outputType.0)
                                 && forall k :: 0 <= k < |e.value.value.inputTypes| ==> IsName(e.value.value.inputTypes[k].0)
  {
    var cut := CommentCut(line);
    match MatchFunction(cut)
    case None => Entry(Failure(Raised(SyntaxError, "Invalid function format")), [])
    case Some(m) =>
      Entry(Success(Function(m.name, m.labelText, ParametersOf(m.parameters), (m.outputType, m.outputLabel))),
            FunctionWarnings(path, n, cut, m.labelText, m.outputLabel))
  }

  /** A function line written as `name: 'label' (parameters) -> out: 'output label'`, with
      or without a trailing ` #comment`, reads back as that function. Its warnings quote the
      line without the comment. */
  lemma FunctionEntryOfWritten(name: string, labelText: string, ps: seq<Parameter>, outputType: string, outputLabel: string,
                               comment: Option<string>, path: string, n: nat)
    requires IsName(name) && IsPlain(labelText) && '#' !in labelText
    requires forall k :: 0 <= k < |ps| ==> Listable(ps[k]) && '\n' !in ps[k].1 && ')' !in ps[k].1 && '#' !in ps[k].1
    requires IsName(outputType) && '\n' !in outputLabel && '#' !in outputLabel
    ensures var written := FunctionLineText(name, labelText, NamedList(ps), outputType, outputLabel);
            var e := FunctionEntry(written + (if comment.Some? then " #" + comment.value else ""), path, n);
            e.value == Success(Function(name, labelText, ps, (outputType, outputLabel)))
            && e.warnings == FunctionWarnings(path, n, written, labelText, outputLabel)
  {
    var parameters := NamedList(ps);
    var written := FunctionLineText(name, labelText, parameters, outputType, outputLabel);
    assert IsParameterText(parameters) by {
      NamedListAvoids(ps, ')');
      NamedListAvoids(ps, '\n');
    }
    assert '#' !in written by {
      NamedListAvoids(ps, '#');
      NameAvoids(name, '#');
      NameAvoids(outputType, '#');
    }
    assert CommentCut(written + (if comment.Some? then " #" + comment.value else "")) == written by {
      assert written[0] == name[0] && IsWordChar(name[0]);
      CutWritten(written, comment);
    }
    MatchFunctionOfWritten(name, labelText, parameters, outputType, outputLabel);
    ParametersOfWritten(ps);
  }

  /** A comment-free text with no whitespace at its ends survives the comment cut, with or
      without a ` #comment` after it. */
  lemma CutWritten(t: string, comment: Option<string>)
    requires t != [] && !IsSpace(t[0]) && !IsSpace(t[|t| - 1]) && '#' !in t
    ensures CommentCut(t + (if comment.Some? then " #" + comment.value else "")) == t
  {
    if comment.Some? {
      assert t + (" #" + comment.value) == t + " #" + comment.value;
      CutComment(t, comment.value);
    } else {
      assert t + "" == t;
      StripSpacesBefore("", t);
      assert "" + t == t;
    }
  }

  /** The comment cut drops ` #comment` from a comment-free text. */
  lemma CutComment(t: string, comment: string)
    requires t != [] && !IsSpace(t[0]) && !IsSpace(t[|t| - 1]) && '#' !in t
    ensures CommentCut(t + " #" + comment) == t
  {
    assert t + " #" + comment == (t + " ") + ['#'] + comment;
    SplitOnceAt(t + " ", '#', comment);
    StripSpacesAfter(t, " ");
  }

  // ---------------------------------------------------------------------------------------
  // `_parse_relationship`
  // ---------------------------------------------------------------------------------------

  /** `_parse_relationship(line)`: exactly three whitespace-separated words. */
  function RelationshipEntry(line: string): (r: Result<Relationship, Raised>)
    ensures r.Success? <==> |SplitWhitespace(line)| == 3
    ensures r.Failure? ==> r.error == Raised(SyntaxError, "Invalid hierarchy format")
    ensures r.Success? ==> [r.value.parent, r.value.relationship, r.value.child] == SplitWhitespace(line)
  {
    var parts := SplitWhitespace(line);
    if |parts| != 3 then Failure(Raised(SyntaxError, "Invalid hierarchy format"))
    else Success(Relationship(parts[0], parts[1], parts[2]))
  }

  /** Three words written with single spaces read back as parent, relationship and child. */
  lemma RelationshipOfWritten(parent: string, relationship: string, child: string)
    requires parent != [] && forall k :: 0 <= k < |parent| ==> !IsSpace(parent[k])
    requires relationship != [] && forall k :: 0 <= k < |relationship| ==> !IsSpace(relationship[k])
    requires child != [] && forall k :: 0 <= k < |child| ==> !IsSpace(child[k])
    ensures RelationshipEntry(parent + " " + relationship + " " + child) == Success(Relationship(parent, relationship, child))
  {
    SplitWhitespaceThree(parent, relationship, child);
  }

  /** Two words, such as `a b`, are not a relationship. */
  lemma RelationshipOfTwoWords(parent: string, child: string)
    requires parent != [] && forall k :: 0 <= k < |parent| ==> !IsSpace(parent[k])
    requires child != [] && forall k :: 0 <= k < |child| ==> !IsSpace(child[k])
    ensures RelationshipEntry(parent + " " + child).Failure?
  {
    SplitWhitespaceWordThen(parent, child);
    SplitWhitespaceWord(child, "");
    assert child + "" == child;
  }

  // ---------------------------------------------------------------------------------------
  // The block state machine of `parse`
  // ---------------------------------------------------------------------------------------

  /** The block a header line opens. */
  datatype Block = Types | Functions | Hierarchy

  /** `types:`, `functions:`, `hierarchy:` */
  function HeaderText(b: Block): string {
    match b
    case Types => "types:"
    case Functions => "functions:"
    case Hierarchy => "hierarchy:"
  }

  /** The block whose header the line starts with, tried in the order above. */
  function HeaderOf(line: string): (r: Option<Block>)
    ensures r.Some? ==> StartsWith(line, HeaderText(r.value))
    ensures r.None? <==> forall b: Block :: !StartsWith(line, HeaderText(b))
  {
    if StartsWith(line, "types:") then Some(Types)
    else if StartsWith(line, "functions:") then Some(Functions)
    else if StartsWith(line, "hierarchy:") then Some(Hierarchy)
    else None
  }

  /** The five metadata keys, tried in this order. */
  datatype MetaKey = VersionKey | TitleKey | AuthorKey | DescKey | TypeKey

  function KeyText(k: MetaKey): string {
    match k
    case VersionKey => "version"
    case TitleKey => "title"
    case AuthorKey => "author"
    case DescKey => "desc"
    case TypeKey => "type"
  }

  /** The metadata entry a line opens: the first key whose `^key:\s+` matches. */
  function MetaKeyOf(line: string): (r: Option<MetaKey>)
    ensures r.Some? ==> OpensMeta(line, KeyText(r.value))
    ensures r.None? <==> forall k: MetaKey :: !OpensMeta(line, KeyText(k))
  {
    if OpensMeta(line, "version") then Some(VersionKey)
    else if OpensMeta(line, "title") then Some(TitleKey)
    else if OpensMeta(line, "author") then Some(AuthorKey)
    else if OpensMeta(line, "desc") then Some(DescKey)
    else if OpensMeta(line, "type") then Some(TypeKey)
    else None
  }

  /** The `meta_data` entry a key fills: `title` fills `name`, `desc` fills `description`. */
  function MetaField(m: Meta, k: MetaKey): Option<string> {
    match k
    case VersionKey => m.version
    case TitleKey => m.name
    case AuthorKey => m.author
    case DescKey => m.description
    case TypeKey => m.kind
  }

  /** `meta_data[field] = value` for the field key `k` fills. */
  function SetMetaField(m: Meta, k: MetaKey, v: string): (m': Meta)
    ensures MetaField(m', k) == Some(v)
    ensures forall other: MetaKey :: other != k ==> MetaField(m', other) == MetaField(m, other)
    ensures m'.dateCreated == m.dateCreated
  {
    match k
    case VersionKey => m.(version := Some(v))
    case TitleKey => m.(name := Some(v))
    case AuthorKey => m.(author := Some(v))
    case DescKey => m.(description := Some(v))
    case TypeKey => m.(kind := Some(v))
  }

  /** Everything `parse` keeps between lines: the current block, the metadata read so far,
      the ontology's three lists and the warnings. */
  datatype State = State(block: Option<Block>, meta: Meta, types: seq<Term>, functions: seq<Function>,
                         hierarchy: seq<Relationship>, warnings: seq<string>)

  /** Either `parse` goes on with a state, or it has raised the exception whose text is
      `message`, with `warnings` appended so far. */
  datatype Outcome = Running(state: State) | Stopped(message: string, warnings: seq<string>)

  /** The state before the first line: no block, every metadata field unset except the
      creation date, which is `today`. */
  function Initial(today: string): State {
    State(None, Meta(None, None, None, None, None, Some(today)), [], [], [], [])
  }

  /** What one line does, `n` being its 1-based number: blank and `#` lines are skipped,
      then metadata keys, then block headers, then an entry of the current block. */
  function StepLine(s: State, path: string, n: nat, raw: string): (o: Outcome)
    ensures o.Running? ==> s.types <= o.state.types && s.functions <= o.state.functions
                           && s.hierarchy <= o.state.hierarchy && s.warnings <= o.state.warnings
    ensures o.Running? ==> o.state.meta.dateCreated == s.meta.dateCreated
    ensures o.Stopped? ==> s.warnings <= o.warnings
    ensures Strip(raw) == "" || Strip(raw)[0] == '#' ==> o == Running(s)
  {
    var line := Strip(raw);
    if line == "" || line[0] == '#' then Running(s)
    else
      match MetaKeyOf(line)
      case Some(k) =>
        var e := MetaEntry(line, KeyText(k), path, n);
        var warnings := s.warnings + e.warnings;
        (match e.value
         case Failure(err) => Stopped(ErrorText(path, n, line, err), warnings)
         case Success(v) => Running(s.(meta := SetMetaField(s.meta, k, v), warnings := warnings)))
      case None =>
        match HeaderOf(line)
        case Some(b) => Running(s.(block := Some(b)))
        case None => EntryStep(s, path, n, line)
  }

  /** A trimmed line that is neither metadata nor a header: an entry of the current block,
      or `Unexpected line` before any header. */
  function EntryStep(s: State, path: string, n: nat, line: string): (o: Outcome)
    ensures o.Running? ==> o.state.block == s.block && o.state.meta == s.meta
    ensures o.Running? ==> |o.state.types| + |o.state.functions| + |o.state.hierarchy|
                           == |s.types| + |s.functions| + |s.hierarchy| + 1
    ensures o.Running? ==> s.types <= o.state.types && s.functions <= o.state.functions
                           && s.hierarchy <= o.state.hierarchy && s.warnings <= o.state.warnings
    ensures o.Stopped? ==> s.warnings <= o.warnings
    ensures s.block.None? ==> o == Stopped(ErrorText(path, n, line, Raised(SyntaxError, "Unexpected line")), s.warnings)
  {
    match s.block
    case None => Stopped(ErrorText(path, n, line, Raised(SyntaxError, "Unexpected line")), s.warnings)
    case Some(Types) =>
      var e := TypeEntry(line, path, n);
      var warnings := s.warnings + e.warnings;
      (match e.value
       case Failure(err) => Stopped(ErrorText(path, n, line, err), warnings)
       case Success(t) => Running(s.(types := s.types + [t], warnings := warnings)))
    case Some(Functions) =>
      var e := FunctionEntry(line, path, n);
      var warnings := s.warnings + e.warnings;
      (match e.value
       case Failure(err) => Stopped(ErrorText(path, n, line, err), warnings)
       case Success(f) => Running(s.(functions := s.functions + [f], warnings := warnings)))
    case Some(Hierarchy) =>
      match RelationshipEntry(line)
      case Failure(err) => Stopped(ErrorText(path, n, line, err), s.warnings)
      case Success(r) => Running(s.(hierarchy := s.hierarchy + [r]))
  }

  /** The loop of `parse` over `lines`, numbering them from 1; the first exception ends it. */
  function Run(s0: State, lines: seq<string>, path: string): (o: Outcome)
    ensures o.Running? ==> s0.types <= o.state.types && s0.functions <= o.state.functions
                           && s0.hierarchy <= o.state.hierarchy && s0.warnings <= o.state.warnings
    ensures o.Running? ==> o.state.meta.dateCreated == s0.meta.dateCreated
    ensures o.Stopped? ==> s0.warnings <= o.warnings
    decreases |lines|
  {
    if |lines| == 0 then Running(s0)
    else
      match Run(s0, lines[..|lines| - 1], path)
      case Stopped(message, warnings) => Stopped(message, warnings)
      case Running(s) => StepLine(s, path, |lines|, lines[|lines| - 1])
  }

  /** `Parser().parse(file_content, file_path)` on the day `today`, up to the final
      `set_meta`. */
  function ParseSpec(content: string, path: string, today: string): Outcome {
    Run(Initial(today), SplitLines(content), path)
  }

  /** A line `parse` passes over. */
  predicate Skipped(raw: string) {
    Strip(raw) == "" || Strip(raw)[0] == '#'
  }

  /** A parse that has raised by line `i` ends as it was then. */
  lemma RunStopsAt(s0: State, lines: seq<string>, i: nat, path: string)
    requires i <= |lines| && Run(s0, lines[..i], path).Stopped?
    ensures Run(s0, lines, path) == Run(s0, lines[..i], path)
  {
    RunStops(s0, lines[..i], lines[i..], path);
    PrefixThenRest(lines, i);
  }

  /** Once a line has raised, later lines change nothing. */
  lemma {:induction false} RunStops(s0: State, lines: seq<string>, more: seq<string>, path: string)
    requires Run(s0, lines, path).Stopped?
    ensures Run(s0, lines + more, path) == Run(s0, lines, path)
    decreases |more|
  {
    if |more| == 0 {
      assert lines + more == lines;
    } else {
      RunStops(s0, lines, more[..|more| - 1], path);
      assert (lines + more)[..|lines + more| - 1] == lines + more[..|more| - 1];
    }
  }

  /** Blank lines and `#` lines leave the outcome as it was. */
  lemma {:induction false} RunSkips(s0: State, lines: seq<string>, skipped: seq<string>, path: string)
    requires forall k :: 0 <= k < |skipped| ==> Skipped(skipped[k])
    ensures Run(s0, lines + skipped, path) == Run(s0, lines, path)
    decreases |skipped|
  {
    if |skipped| == 0 {
      assert lines + skipped == lines;
    } else {
      var init := skipped[..|skipped| - 1];
      RunSkips(s0, lines, init, path);
      AppendLast(lines, skipped);
      RunSkipsLast(s0, lines + skipped, path);
    }
  }

  lemma AppendLast(lines: seq<string>, more: seq<string>)
    requires |more| > 0
    ensures (lines + more)[..|lines + more| - 1] == lines + more[..|more| - 1]
    ensures (lines + more)[|lines + more| - 1] == more[|more| - 1]
  {
    assert (lines + more)[..|lines + more| - 1] == lines + more[..|more| - 1];
  }

  lemma RunSkipsLast(s0: State, lines: seq<string>, path: string)
    requires |lines| > 0 && Skipped(lines[|lines| - 1])
    ensures Run(s0, lines, path) == Run(s0, lines[..|lines| - 1], path)
  {
  }

  /** A metadata field no line opens keeps the value it started with. */
  lemma {:induction false} RunKeepsField(s0: State, lines: seq<string>, path: string, k: MetaKey)
    requires forall j :: 0 <= j < |lines| ==> !OpensMeta(Strip(lines[j]), KeyText(k))
    ensures Run(s0, lines, path).Running? ==> MetaField(Run(s0, lines, path).state.meta, k) == MetaField(s0.meta, k)
    decreases |lines|
  {
    if |lines| > 0 {
      var last := |lines| - 1;
      RunKeepsField(s0, lines[..last], path, k);
      if Run(s0, lines[..last], path).Running? {
        StepKeepsField(Run(s0, lines[..last], path).state, path, |lines|, lines[last], k);
      }
    }
  }

  /** A line that does not open a metadata key leaves that field as it was. */
  lemma StepKeepsField(s: State, path: string, n: nat, raw: string, k: MetaKey)
    requires !OpensMeta(Strip(raw), KeyText(k))
    ensures StepLine(s, path, n, raw).Running? ==> MetaField(StepLine(s, path, n, raw).state.meta, k) == MetaField(s.meta, k)
  {
  }

  /** After `parse`, the creation date is `today`, and a metadata field is unset unless some
      line opens its key. */
  lemma ParseDefaults(content: string, path: string, today: string, k: MetaKey)
    requires forall j :: 0 <= j < |SplitLines(content)| ==> !OpensMeta(Strip(SplitLines(content)[j]), KeyText(k))
    ensures ParseSpec(content, path, today).Running? ==>
              var m := ParseSpec(content, path, today).state.meta;
              m.dateCreated == Some(today) && MetaField(m, k) == None
  {
    RunKeepsField(Initial(today), SplitLines(content), path, k);
  }

  /** Until a header line, the block stays unset and no entry is added. */
  lemma {:induction false} RunWithoutHeader(s0: State, lines: seq<string>, path: string)
    requires s0.block == None
    requires forall j :: 0 <= j < |lines| ==> HeaderOf(Strip(lines[j])).None?
    ensures Run(s0, lines, path).Running? ==>
              var s := Run(s0, lines, path).state;
              s.block == None && s.types == s0.types && s.functions == s0.functions && s.hierarchy == s0.hierarchy
    decreases |lines|
  {
    if |lines| > 0 {
      var last := |lines| - 1;
      RunWithoutHeader(s0, lines[..last], path);
      if Run(s0, lines[..last], path).Running? {
        StepWithoutHeader(Run(s0, lines[..last], path).state, path, |lines|, lines[last]);
      }
    }
  }

  /** Outside any block, a line that is not a header adds no entry and opens no block. */
  lemma StepWithoutHeader(s: State, path: string, n: nat, raw: string)
    requires s.block == None && HeaderOf(Strip(raw)).None?
    ensures StepLine(s, path, n, raw).Running? ==>
              var t := StepLine(s, path, n, raw).state;
              t.block == None && t.types == s.types && t.functions == s.functions && t.hierarchy == s.hierarchy
  {
  }

  /** A line that is neither blank, a comment, metadata nor a header, before any header,
      makes `parse` raise `SyntaxError: Unexpected line`. */
  lemma UnexpectedBeforeHeader(lines: seq<string>, raw: string, path: string, today: string)
    requires forall j :: 0 <= j < |lines| ==> HeaderOf(Strip(lines[j])).None?
    requires Run(Initial(today), lines, path).Running?
    requires !Skipped(raw) && MetaKeyOf(Strip(raw)).None? && HeaderOf(Strip(raw)).None?
    ensures Run(Initial(today), lines + [raw], path)
            == Stopped(ErrorText(path, |lines| + 1, Strip(raw), Raised(SyntaxError, "Unexpected line")),
                       Run(Initial(today), lines, path).state.warnings)
  {
    RunWithoutHeader(Initial(today), lines, path);
    assert (lines + [raw])[..|lines|] == lines;
  }

  /** The words a line must not start with, followed by a colon, to be read as an entry:
      the metadata keys and the block headers. */
  const ReservedNames: set<string> := {"version", "title", "author", "desc", "type", "types", "functions", "hierarchy"}

  /** A line that starts with a name and then a non-word character is led by `word` and a
      colon only if the name is `word` and a colon follows it. */
  lemma NotLedBy(name: string, rest: string, word: string)
    requires IsName(name) && IsName(word) && rest != [] && !IsWordChar(rest[0])
    requires rest[0] == ':' ==> name != word
    ensures !LedBy(name + rest, word)
  {
    var line := name + rest;
    if |name| == |word| {
      assert line[..|word|] == name;
      assert line[|word|] == rest[0];
    } else if |name| > |word| {
      assert line[|word|] == name[|word|];
      assert IsWordChar(name[|word|]);
    } else if |word| < |line| {
      assert line[|name|] == rest[0];
      assert IsWordChar(word[|name|]);
      assert line[..|word|][|name|] == line[|name|];
    }
  }

  /** The line starts with `word` and a colon. */
  predicate LedBy(line: string, word: string) {
    |word| < |line| && line[..|word|] == word && line[|word|] == ':'
  }

  /** `line.startswith(word + ':')` is `LedBy(line, word)`. */
  lemma NotStartsWithHeader(line: string, word: string)
    requires !LedBy(line, word)
    ensures !StartsWith(line, word + ":")
  {
    if |word| < |line| && line[..|word|] == word {
      assert (word + ":")[|word|] == ':';
    } else if |word| + 1 <= |line| {
      assert line[..|word| + 1][..|word|] == line[..|word|];
      assert (word + ":")[..|word|] == word;
    }
  }

  /** A line that starts with a name that is not reserved, followed by a non-word
      character, is neither metadata nor a header. */
  lemma NameLed(name: string, rest: string)
    requires IsName(name) && rest != [] && !IsWordChar(rest[0])
    requires rest[0] == ':' ==> name !in ReservedNames
    ensures MetaKeyOf(name + rest).None? && HeaderOf(name + rest).None?
  {
    var line := name + rest;
    forall word | word in ReservedNames
      ensures !LedBy(line, word)
    {
      assert IsName(word);
      NotLedBy(name, rest, word);
    }
    NotStartsWithHeader(line, "types");
    NotStartsWithHeader(line, "functions");
    NotStartsWithHeader(line, "hierarchy");
  }

  /** Text that starts and ends with something other than whitespace is its own `strip()`. */
  lemma StripOwn(t: string)
    requires t != [] && !IsSpace(t[0]) && !IsSpace(t[|t| - 1])
    ensures Strip(t) == t
  {
    StripSpacesBefore("", t);
    assert "" + t == t;
  }

  /** A trimmed line, neither blank, a comment, metadata nor a header: an entry line. */
  predicate EntryLine(line: string) {
    line != [] && !IsSpace(line[0]) && !IsSpace(line[|line| - 1]) && line[0] != '#'
    && MetaKeyOf(line).None? && HeaderOf(line).None?
  }

  /** An entry line is an entry of the current block. */
  lemma StepOfEntry(s: State, path: string, n: nat, line: string)
    requires EntryLine(line)
    ensures StepLine(s, path, n, line) == EntryStep(s, path, n, line)
  {
    StripOwn(line);
  }

  /** A name's first character is neither whitespace nor `#`. */
  lemma NameStart(name: string)
    requires IsName(name)
    ensures !IsSpace(name[0]) && name[0] != '#'
  {
    assert IsWordChar(name[0]);
  }

  /** A type line whose name is not reserved is an entry line. */
  lemma TypeLineIsEntry(name: string, labelText: string, description: string, attributes: Option<string>)
    requires IsName(name) && name !in ReservedNames
    ensures EntryLine(TypeLineText(name, labelText, description, attributes))
  {
    var line := TypeLineText(name, labelText, description, attributes);
    var rest := ": '" + labelText + "', '" + description + "'" + AttributeSuffix(attributes);
    FirstOfSeven(name, ": '", labelText, "', '", description, "'", AttributeSuffix(attributes));
    NameLed(name, rest);
    NameStart(name);
    assert line[0] == name[0];
    assert line[|line| - 1] == rest[|rest| - 1];
    assert rest[|rest| - 1] == '\'' || rest[|rest| - 1] == '}';
  }

  /** In the types block, a type line whose name is not reserved adds its term, with its
      warnings. */
  lemma TypeLineStep(s: State, path: string, n: nat, name: string, labelText: string, description: string,
                     block: Option<seq<(string, string)>>)
    requires s.block == Some(Types)
    requires IsName(name) && name !in ReservedNames && IsPlain(labelText) && IsPlain(description)
    requires block.Some? ==> forall k :: 0 <= k < |block.value| ==> Storable(block.value[k])
    ensures var line := TypeLineText(name, labelText, description, BlockOf(block));
            StepLine(s, path, n, line)
            == Running(s.(types := s.types + [Term(name, labelText, description, if block.Some? then MapOf(block.value) else map[])],
                          warnings := s.warnings + TypeWarnings(path, n, line, labelText, description)))
  {
    var line := TypeLineText(name, labelText, description, BlockOf(block));
    TypeLineIsEntry(name, labelText, description, BlockOf(block));
    StepOfEntry(s, path, n, line);
    TypeEntryOfWritten(name, labelText, description, block, path, n);
  }

  /** A function line whose name is not reserved is an entry line. */
  lemma FunctionLineIsEntry(name: string, labelText: string, parameters: string, outputType: string, outputLabel: string)
    requires IsName(name) && name !in ReservedNames
    ensures EntryLine(FunctionLineText(name, labelText, parameters, outputType, outputLabel))
  {
    var line := FunctionLineText(name, labelText, parameters, outputType, outputLabel);
    var rest := ": '" + labelText + "' (" + parameters + ") -> " + NamedText(outputType, outputLabel);
    assert line == name + rest;
    NameLed(name, rest);
    NameStart(name);
    assert line[0] == name[0];
    assert line[|line| - 1] == '\'';
  }

  /** In the functions block, a function line whose name is not reserved adds its function,
      with its warnings. */
  lemma FunctionLineStep(s: State, path: string, n: nat, name: string, labelText: string, ps: seq<Parameter>,
                         outputType: string, outputLabel: string)
    requires s.block == Some(Functions)
    requires IsName(name) && name !in ReservedNames && IsPlain(labelText) && '#' !in labelText
    requires forall k :: 0 <= k < |ps| ==> Listable(ps[k]) && '\n' !in ps[k].1 && ')' !in ps[k].1 && '#' !in ps[k].1
    requires IsName(outputType) && '\n' !in outputLabel && '#' !in outputLabel
    ensures var line := FunctionLineText(name, labelText, NamedList(ps), outputType, outputLabel);
            StepLine(s, path, n, line)
            == Running(s.(functions := s.functions + [Function(name, labelText, ps, (outputType, outputLabel))],
                          warnings := s.warnings + FunctionWarnings(path, n, line, labelText, outputLabel)))
  {
    var line := FunctionLineText(name, labelText, NamedList(ps), outputType, outputLabel);
    FunctionLineIsEntry(name, labelText, NamedList(ps), outputType, outputLabel);
    StepOfEntry(s, path, n, line);
    FunctionLineReads(name, labelText, ps, outputType, outputLabel, path, n);
    FunctionEntryStep(s, path, n, line, Function(name, labelText, ps, (outputType, outputLabel)),
                      FunctionWarnings(path, n, line, labelText, outputLabel));
  }

  lemma FunctionEntryStep(s: State, path: string, n: nat, line: string, f: Function, w: seq<string>)
    requires s.block == Some(Functions) && FunctionEntry(line, path, n) == Entry(Success(f), w)
    ensures EntryStep(s, path, n, line) == Running(s.(functions := s.functions + [f], warnings := s.warnings + w))
  {
  }

  /** A function line without a comment reads back as its function. */
  lemma FunctionLineReads(name: string, labelText: string, ps: seq<Parameter>, outputType: string, outputLabel: string,
                          path: string, n: nat)
    requires IsName(name) && IsPlain(labelText) && '#' !in labelText
    requires forall k :: 0 <= k < |ps| ==> Listable(ps[k]) && '\n' !in ps[k].1 && ')' !in ps[k].1 && '#' !in ps[k].1
    requires IsName(outputType) && '\n' !in outputLabel && '#' !in outputLabel
    ensures var line := FunctionLineText(name, labelText, NamedList(ps), outputType, outputLabel);
            FunctionEntry(line, path, n) == Entry(Success(Function(name, labelText, ps, (outputType, outputLabel))),
                                                  FunctionWarnings(path, n, line, labelText, outputLabel))
  {
    var line := FunctionLineText(name, labelText, NamedList(ps), outputType, outputLabel);
    FunctionEntryOfWritten(name, labelText, ps, outputType, outputLabel, None, path, n);
    assert line + "" == line;
  }

  /** Three words written with single spaces, the first a name, make an entry line that
      reads back as that relationship. */
  lemma RelationshipLineIsEntry(parent: string, relationship: string, child: string)
    requires IsName(parent)
    requires relationship != [] && forall k :: 0 <= k < |relationship| ==> !IsSpace(relationship[k])
    requires child != [] && forall k :: 0 <= k < |child| ==> !IsSpace(child[k])
    ensures var line := parent + " " + relationship + " " + child;
            EntryLine(line) && RelationshipEntry(line) == Success(Relationship(parent, relationship, child))
  {
    var line := parent + " " + relationship + " " + child;
    var rest := " " + relationship + " " + child;
    assert line == parent + rest;
    NameLed(parent, rest);
    NameStart(parent);
    assert line[0] == parent[0];
    assert line[|line| - 1] == child[|child| - 1];
    assert forall k :: 0 <= k < |parent| ==> !IsSpace(parent[k]) by {
      assert forall k :: 0 <= k < |parent| ==> IsWordChar(parent[k]);
    }
    RelationshipOfWritten(parent, relationship, child);
  }

  /** In the hierarchy block, three words written with single spaces add one relationship
      and no warning. */
  lemma RelationshipLineStep(s: State, path: string, n: nat, parent: string, relationship: string, child: string)
    requires s.block == Some(Hierarchy)
    requires IsName(parent)
    requires relationship != [] && forall k :: 0 <= k < |relationship| ==> !IsSpace(relationship[k])
    requires child != [] && forall k :: 0 <= k < |child| ==> !IsSpace(child[k])
    ensures StepLine(s, path, n, parent + " " + relationship + " " + child)
            == Running(s.(hierarchy := s.hierarchy + [Relationship(parent, relationship, child)]))
  {
    RelationshipLineIsEntry(parent, relationship, child);
    StepOfEntry(s, path, n, parent + " " + relationship + " " + child);
  }

  /** A would-be type line named `type` is trimmed and not a comment. */
  lemma TypeNamedTypeTrimmed(labelText: string, description: string)
    ensures var line := TypeLineText("type", labelText, description, None);
            Strip(line) == line && line != [] && line[0] != '#'
  {
    var line := TypeLineText("type", labelText, description, None);
    assert line[0] == 't' && line[|line| - 1] == '\'';
    StripOwn(line);
  }

  /** A would-be type line named `type` opens the `type` metadata entry and no other. */
  lemma TypeNamedTypeKey(labelText: string, description: string)
    ensures MetaKeyOf(TypeLineText("type", labelText, description, None)) == Some(TypeKey)
  {
    var line := TypeLineText("type", labelText, description, None);
    var rest := ": '" + labelText + "', '" + description + "'";
    assert line == "type" + rest;
    assert IsName("type");
    NotLedBy("type", rest, "version");
    NotLedBy("type", rest, "title");
    NotLedBy("type", rest, "author");
    NotLedBy("type", rest, "desc");
    assert line[..4] == "type" && line[4] == ':' && line[5] == ' ';
  }

  /** The value of that `type` entry is the label. */
  lemma TypeNamedTypeValue(labelText: string, description: string)
    requires IsPlain(labelText)
    ensures MetaValue(TypeLineText("type", labelText, description, None), "type") == Some(labelText)
  {
    var line := TypeLineText("type", labelText, description, None);
    var rest := ", '" + description + "'";
    assert line == "type" + ":" + " " + ['\''] + labelText + ['\''] + rest;
    assert forall k {:trigger IsSpace(" "[k])} :: 0 <= k < |" "| ==> IsSpace(" "[k]);
    MetaValueOfWritten("type", " ", '\'', labelText, '\'', rest);
  }

  /** In any block, a would-be type named `type` is read as the ontology's `type` metadata:
      its label becomes `meta.type` and no term is added. */
  lemma TypeNamedType(s: State, path: string, n: nat, labelText: string, description: string)
    requires IsPlain(labelText) && labelText != "" && IsPlain(description)
    ensures StepLine(s, path, n, TypeLineText("type", labelText, description, None))
            == Running(s.(meta := SetMetaField(s.meta, TypeKey, labelText)))
  {
    TypeNamedTypeTrimmed(labelText, description);
    TypeNamedTypeKey(labelText, description);
    TypeNamedTypeValue(labelText, description);
    assert s.warnings + [] == s.warnings;
  }

  // ---------------------------------------------------------------------------------------
  // class `Parser`
  // ---------------------------------------------------------------------------------------

  /** Once some prefix of the pairs raises, the whole loop raises with that exception. */
  lemma {:induction false} StoreAllStopped(rs: seq<Result<(string, string), Raised>>, i: nat)
    requires i <= |rs| && StoreAll(rs[..i]).Failure?
    ensures StoreAll(rs) == StoreAll(rs[..i])
    decreases |rs| - i
  {
    if i < |rs| {
      assert rs[..i + 1][..i] == rs[..i];
      StoreAllStopped(rs, i + 1);
    } else {
      assert rs[..i] == rs;
    }
  }

  /** One more pair: its exception, or its value stored under its key. */
  lemma StoreStep(rs: seq<Result<(string, string), Raised>>, i: nat, m: map<string, string>)
    requires i < |rs| && StoreAll(rs[..i]) == Success(m)
    ensures StoreAll(rs[..i + 1]) == if rs[i].Failure? then Failure(rs[i].error) else Success(m[rs[i].value.0 := rs[i].value.1])
  {
    assert rs[..i + 1][..i] == rs[..i];
  }

  lemma SomesStep(rs: seq<Option<Parameter>>, i: nat, ps: seq<Parameter>, found: Option<Parameter>)
    requires i < |rs| && ps == Somes(rs[..i]) && found == rs[i]
    ensures Somes(rs[..i + 1]) == if found.None? then ps else ps + [found.value]
  {
    assert rs[..i + 1][..i] == rs[..i];
  }

  /** One more line: the exception that already stopped `parse`, or the line's step. */
  lemma RunStep(s0: State, lines: seq<string>, i: nat, path: string)
    requires i < |lines|
    ensures Run(s0, lines[..i + 1], path)
            == match Run(s0, lines[..i], path)
               case Stopped(message, warnings) => Stopped(message, warnings)
               case Running(s) => StepLine(s, path, i + 1, lines[i])
  {
    assert lines[..i + 1][..i] == lines[..i];
  }

  /** Appending twice appends the two parts together. */
  lemma AppendTwice(a: seq<string>, b: seq<string>, c: seq<string>)
    ensures a + b + c == a + (b + c)
  {
  }

  /** The ontology's lists, the metadata and the warnings as `parse` leaves them. */
  predicate Holds(o: Ontology, s: State, warnings: seq<string>)
    reads o
  {
    o.types == s.types && o.functions == s.functions && o.hierarchy == s.hierarchy && warnings == s.warnings
  }

  class Parser {
    /** Every warning added since the last `parse` began. */
    var warnings: seq<string>

    constructor()
      ensures warnings == []
    {
      warnings := [];
    }

    /** `_add_warning` */
    method AddWarning(path: string, n: nat, line: string, message: string)
      modifies this
      ensures warnings == old(warnings) + [WarningText(path, n, line, message)]
    {
      warnings := warnings + [WarningText(path, n, line, message)];
    }

    /** `_parse_meta_line` */
    method ParseMetaLine(line: string, key: string, path: string, n: nat) returns (r: Result<string, Raised>)
      modifies this
      ensures r == MetaEntry(line, key, path, n).value
      ensures warnings == old(warnings) + MetaEntry(line, key, path, n).warnings
    {
      var found := MetaValue(line, key);
      if found.None? {
        return Failure(Raised(SyntaxError, "Invalid " + key + " format"));
      }
      var value := found.value;
      if value == "" {
        AddWarning(path, n, line, "Meta value is empty");
      } else {
        assert warnings == warnings + [];
      }
      return Success(value);
    }

    /** `_parse_attributes`: stores each piece's pair in turn; the first piece without a
        colon raises. */
    method ParseAttributes(attrString: string) returns (r: Result<map<string, string>, Raised>)
      ensures r == AttributesOf(attrString)
    {
      var attributes: map<string, string> := map[];
      if attrString != "" {
        var pieces := Split(Strip(StripChars(attrString, Braces)), ',');
        ghost var rs := PairsOf(pieces);
        var i := 0;
        while i < |pieces|
          invariant 0 <= i <= |pieces|
          invariant StoreAll(rs[..i]) == Success(attributes)
        {
          StoreStep(rs, i, attributes);
          var pair := AttributeOf(pieces[i]);
          if pair.Failure? {
            StoreAllStopped(rs, i + 1);
            return Failure(pair.error);
          }
          attributes := attributes[pair.value.0 := pair.value.1];
          i := i + 1;
        }
        assert rs[..i] == rs;
      }
      return Success(attributes);
    }

    /** `_parse_parameters`: keeps, in order, each trimmed piece that matches. */
    method ParseParameters(paramString: string) returns (params: seq<Parameter>)
      ensures params == ParametersOf(paramString)
    {
      params := [];
      var pieces := Split(paramString, ',');
      ghost var rs := Matched(pieces);
      var i := 0;
      while i < |pieces|
        invariant 0 <= i <= |pieces|
        invariant params == Somes(rs[..i])
      {
        var found := MatchParameter(Strip(pieces[i]));
        SomesStep(rs, i, params, found);
        if found.Some? {
          params := params + [found.value];
        }
        i := i + 1;
      }
      assert rs[..i] == rs;
      ParametersOfParts(paramString);
    }

    /** `_parse_type` */
    method ParseType(line: string, path: string, n: nat) returns (r: Result<Term, Raised>)
      modifies this
      ensures r == TypeEntry(line, path, n).value
      ensures warnings == old(warnings) + TypeEntry(line, path, n).warnings
    {
      var found := MatchType(line);
      if found.None? {
        return Failure(Raised(SyntaxError, "Invalid type format"));
      }
      var m := found.value;
      if m.labelText == "" {
        AddWarning(path, n, line, "Label is empty for type.");
      }
      if m.description == "" {
        AddWarning(path, n, line, "Description is empty for type.");
      }
      assert warnings == old(warnings) + TypeWarnings(path, n, line, m.labelText, m.description);
      var attributes: map<string, string> := map[];
      if m.attributes.Some? && m.attributes.value != "" {
        var parsed := ParseAttributes(m.attributes.value);
        if parsed.Failure? {
          return Failure(parsed.error);
        }
        attributes := parsed.value;
      }
      return Success(Term(m.name, m.labelText, m.description, attributes));
    }

    /** `_parse_function` */
    method ParseFunction(line: string, path: string, n: nat) returns (r: Result<Function, Raised>)
      modifies this
      ensures r == FunctionEntry(line, path, n).value
      ensures warnings == old(warnings) + FunctionEntry(line, path, n).warnings
    {
      var cut := Strip(SplitOnce(line, '#')[0]);
      assert cut == CommentCut(line);
      var found := MatchFunction(cut);
      if found.None? {
        assert warnings == old(warnings) + [];
        return Failure(Raised(SyntaxError, "Invalid function format"));
      }
      var m := found.value;
      var inputs := ParseParameters(m.parameters);
      WarnLabels(path, n, cut, m.labelText, m.outputLabel);
      return Success(Function(m.name, m.labelText, inputs, (m.outputType, m.outputLabel)));
    }

    /** The two label warnings of `_parse_function`, in order. */
    method WarnLabels(path: string, n: nat, cut: string, labelText: string, outputLabel: string)
      modifies this
      ensures warnings == old(warnings) + FunctionWarnings(path, n, cut, labelText, outputLabel)
    {
      ghost var first := if labelText == "" then [WarningText(path, n, cut, "Label is empty")] else [];
      ghost var second := if outputLabel == "" then [WarningText(path, n, cut, "Output label is empty")] else [];
      if labelText == "" {
        AddWarning(path, n, cut, "Label is empty");
      }
      assert warnings == old(warnings) + first;
      ghost var between := warnings;
      if outputLabel == "" {
        AddWarning(path, n, cut, "Output label is empty");
      }
      assert warnings == between + second;
      AppendTwice(old(warnings), first, second);
    }

    /** One pass of the loop of `parse`: `block` and `meta` are `current_block` and
        `meta_data` before the line, `failure` the text of the exception it raises. */
    method ParseLine(o: Ontology, block: Option<Block>, meta: Meta, path: string, n: nat, raw: string)
      returns (block': Option<Block>, meta': Meta, failure: Option<string>)
      modifies this, o
      ensures StepLine(State(block, meta, old(o.types), old(o.functions), old(o.hierarchy), old(warnings)), path, n, raw)
              == if failure.Some? then Stopped(failure.value, warnings)
                 else Running(State(block', meta', o.types, o.functions, o.hierarchy, warnings))
      ensures o.meta == old(o.meta)
    {
      block', meta', failure := block, meta, None;
      var line := Strip(raw);
      if line == "" || line[0] == '#' {
        return;
      }
      var key := MetaKeyOf(line);
      if key.Some? {
        var value := ParseMetaLine(line, KeyText(key.value), path, n);
        if value.Failure? {
          failure := Some(ErrorText(path, n, line, value.error));
        } else {
          meta' := SetMetaField(meta, key.value, value.value);
        }
        return;
      }
      var header := HeaderOf(line);
      if header.Some? {
        block' := header;
        return;
      }
      failure := ParseEntry(o, block, meta, path, n, line);
    }

    /** The entry branches of that pass, for a trimmed line that is neither metadata nor a
        header. */
    method ParseEntry(o: Ontology, block: Option<Block>, ghost meta: Meta, path: string, n: nat, line: string)
      returns (failure: Option<string>)
      modifies this, o
      ensures EntryStep(State(block, meta, old(o.types), old(o.functions), old(o.hierarchy), old(warnings)), path, n, line)
              == if failure.Some? then Stopped(failure.value, warnings)
                 else Running(State(block, meta, o.types, o.functions, o.hierarchy, warnings))
      ensures o.meta == old(o.meta)
    {
      failure := None;
      ghost var s := State(block, meta, o.types, o.functions, o.hierarchy, warnings);
      if block == Some(Types) {
        var t := ParseType(line, path, n);
        if t.Failure? {
          failure := Some(ErrorText(path, n, line, t.error));
          assert EntryStep(s, path, n, line) == Stopped(failure.value, warnings);
          return;
        }
        o.AddType(t.value);
        assert EntryStep(s, path, n, line) == Running(s.(types := o.types, warnings := warnings));
      } else if block == Some(Functions) {
        var f := ParseFunction(line, path, n);
        if f.Failure? {
          failure := Some(ErrorText(path, n, line, f.error));
          assert EntryStep(s, path, n, line) == Stopped(failure.value, warnings);
          return;
        }
        o.AddFunction(f.value);
        assert EntryStep(s, path, n, line) == Running(s.(functions := o.functions, warnings := warnings));
      } else if block == Some(Hierarchy) {
        var relationship := RelationshipEntry(line);
        if relationship.Failure? {
          failure := Some(ErrorText(path, n, line, relationship.error));
          return;
        }
        o.AddRelationship(relationship.value);
      } else {
        failure := Some(ErrorText(path, n, line, Raised(SyntaxError, "Unexpected line")));
      }
    }

    /** The loop of `parse` over the lines, from the state `s0` that `o` and `warnings`
        hold: what `Run` computes, with `o` holding the entries of the final state. */
    method RunLines(o: Ontology, s0: State, lines: seq<string>, path: string)
      returns (block: Option<Block>, meta: Meta, failure: Option<string>)
      modifies this, o
      requires Holds(o, s0, warnings)
      ensures o.meta == old(o.meta)
      ensures Run(s0, lines, path)
              == if failure.Some? then Stopped(failure.value, warnings)
                 else Running(State(block, meta, o.types, o.functions, o.hierarchy, warnings))
    {
      block, meta, failure := s0.block, s0.meta, None;
      var i := 0;
      while i < |lines|
        invariant 0 <= i <= |lines|
        invariant o.meta == old(o.meta) && failure.None?
        invariant Run(s0, lines[..i], path) == Running(State(block, meta, o.types, o.functions, o.hierarchy, warnings))
      {
        block, meta, failure := RunLine(o, s0, lines, i, block, meta, path);
        if failure.Some? {
          RunStopsAt(s0, lines, i + 1, path);
          return;
        }
        i := i + 1;
      }
      assert lines[..i] == lines;
    }

    /** One turn of that loop: line `i` taken on from the state `Run` reached before it. */
    method RunLine(o: Ontology, ghost s0: State, lines: seq<string>, i: nat, block: Option<Block>, meta: Meta, path: string)
      returns (block': Option<Block>, meta': Meta, failure: Option<string>)
      modifies this, o
      requires i < |lines|
      requires Run(s0, lines[..i], path) == Running(State(block, meta, o.types, o.functions, o.hierarchy, warnings))
      ensures o.meta == old(o.meta)
      ensures Run(s0, lines[..i + 1], path)
              == if failure.Some? then Stopped(failure.value, warnings)
                 else Running(State(block', meta', o.types, o.functions, o.hierarchy, warnings))
    {
      RunStep(s0, lines, i, path);
      block', meta', failure := ParseLine(o, block, meta, path, i + 1, lines[i]);
    }

    /** `parse(file_content, file_path)` on the day `today`: the ontology it returns, its
        warnings left in `warnings`, or the text of the exception it raises. */
    method Parse(content: string, path: string, today: string) returns (r: Result<Ontology, string>)
      modifies this
      ensures ParseSpec(content, path, today).Running? ==>
                r.Success? && fresh(r.value) && Holds(r.value, ParseSpec(content, path, today).state, warnings)
                && r.value.meta == Some(ParseSpec(content, path, today).state.meta)
      ensures ParseSpec(content, path, today).Stopped? ==>
                r == Failure(ParseSpec(content, path, today).message) && warnings == ParseSpec(content, path, today).warnings
    {
      warnings := [];
      var o := new Ontology();
      var lines := SplitLines(content);
      var block, meta, failure := RunLines(o, Initial(today), lines, path);
      if failure.Some? {
        return Failure(failure.value);
      }
      var raised := o.SetMeta(meta);
      return Success(o);
    }
  }
}

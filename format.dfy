/**
  The subset of Python's `str.format_map` that the backend tables use:
  `{name}` replacement fields and the `{{` / `}}` escapes.

  A template is first parsed into tokens (one `Lit` per output character that the
  template itself contributes, one `Hole` per replacement field), and the tokens are
  then rendered against a mapping from names to values.
*/
module Format {
  import opened Wrappers

  datatype Token = Lit(c: char) | Hole(name: string)

  datatype FormatError =
    | MissingKey(name: string)  // a field whose name the mapping lacks (Python: KeyError)
    | Malformed                 // a lone brace, an unterminated or empty field, or a field outside the subset (Python: ValueError)

  predicate IsBrace(c: char) { c == '{' || c == '}' }

  /** A string with no brace in it. */
  predicate Plain(s: string) { forall i :: 0 <= i < |s| ==> !IsBrace(s[i]) }

  /** Brace-free text joined to brace-free text is brace-free. */
  lemma PlainAppend(s: string, t: string)
    requires Plain(s) && Plain(t)
    ensures Plain(s + t)
  {
    forall i | 0 <= i < |s + t|
      ensures !IsBrace((s + t)[i])
    {
      if i >= |s| { assert (s + t)[i] == t[i - |s|]; }
    }
  }

  predicate AllDigits(s: string) {
    s == [] || ('0' <= s[0] <= '9' && AllDigits(s[1..]))
  }

  /** A character that may appear in a field name of the subset. */
  predicate NameChar(c: char) {
    !IsBrace(c) && c != '.' && c != '[' && c != '!' && c != ':'
  }

  /**
    The field names this model accepts: non-empty, not a positional index (all digits),
    and free of braces and of the attribute, index, conversion and format-spec markers.
  */
  predicate ValidName(n: string) {
    |n| > 0 && !AllDigits(n) && forall i :: 0 <= i < |n| ==> NameChar(n[i])
  }

  /** Length of the longest brace-free prefix of `t`. */
  function FieldLength(t: string): (k: nat)
    ensures k <= |t|
    ensures k == |t| || IsBrace(t[k])
    ensures Plain(t[..k])
  {
    if t == [] || IsBrace(t[0]) then 0
    else
      var k := 1 + FieldLength(t[1..]);
      assert t[..k] == [t[0]] + t[1..][..k - 1];
      k
  }

  function Prepend(tok: Token, rest: Option<seq<Token>>): Option<seq<Token>> {
    match rest
    case None => None
    case Some(ts) => Some([tok] + ts)
  }

  /** Splits a template into tokens; `None` when Python's formatter would reject it. */
  function Parse(t: string): Option<seq<Token>>
    decreases |t|
  {
    if t == [] then Some([])
    else if t[0] == '{' then
      if |t| > 1 && t[1] == '{' then Prepend(Lit('{'), Parse(t[2..]))
      else
        var k := 1 + FieldLength(t[1..]);
        if k < |t| && t[k] == '}' && ValidName(t[1..k]) then Prepend(Hole(t[1..k]), Parse(t[k + 1..]))
        else None
    else if t[0] == '}' then
      if |t| > 1 && t[1] == '}' then Prepend(Lit('}'), Parse(t[2..])) else None
    else Prepend(Lit(t[0]), Parse(t[1..]))
  }

  /** The template text that parses back to `toks`: braces doubled, holes braced. */
  function Unparse(toks: seq<Token>): string {
    if toks == [] then ""
    else
      (match toks[0]
       case Lit(c) => if IsBrace(c) then [c, c] else [c]
       case Hole(n) => "{" + n + "}")
      + Unparse(toks[1..])
  }

  predicate ValidTokens(toks: seq<Token>) {
    forall i :: 0 <= i < |toks| && toks[i].Hole? ==> ValidName(toks[i].name)
  }

  /** The names of the replacement fields. */
  function Holes(toks: seq<Token>): set<string> {
    if toks == [] then {}
    else (if toks[0].Hole? then {toks[0].name} else {}) + Holes(toks[1..])
  }

  /** Renders left to right; the first field missing from `kw` is the error. */
  function Render(toks: seq<Token>, kw: map<string, string>): Result<string, FormatError> {
    if toks == [] then Ok("")
    else
      var head: Result<string, FormatError> :=
        match toks[0]
        case Lit(c) => Ok([c])
        case Hole(n) => if n in kw then Ok(kw[n]) else Err(MissingKey(n));
      if head.Err? then head
      else
        match Render(toks[1..], kw)
        case Err(e) => Err(e)
        case Ok(s) => Ok(head.value + s)
  }

  /** `template.format_map(kw)`, restricted to the subset above. */
  function FormatMap(template: string, kw: map<string, string>): (r: Result<string, FormatError>)
    ensures r == Err(Malformed) <==> Parse(template).None?
    ensures Parse(template).Some? ==> (r.Ok? <==> Holes(Parse(template).value) <= kw.Keys)
    ensures r.Err? && r.error.MissingKey? ==> r.error.name !in kw
  {
    match Parse(template)
    case None => Err(Malformed)
    case Some(toks) => RenderOkIff(toks, kw); Render(toks, kw)
  }

  // ---------------------------------------------------------------------------
  // Parsing and unparsing are inverse

  lemma FieldLengthOfPlain(n: string, rest: string)
    requires Plain(n) && |rest| > 0 && IsBrace(rest[0])
    ensures FieldLength(n + rest) == |n|
    decreases |n|
  {
    if n != [] {
      assert (n + rest)[0] == n[0];
      assert (n + rest)[1..] == n[1..] + rest;
      FieldLengthOfPlain(n[1..], rest);
    } else {
      assert n + rest == rest;
    }
  }

  /** One step of parsing: a literal character, escaped when it is a brace. */
  lemma ParseLitStep(c: char, rest: string)
    ensures Parse((if IsBrace(c) then [c, c] else [c]) + rest) == Prepend(Lit(c), Parse(rest))
  {
    var t := (if IsBrace(c) then [c, c] else [c]) + rest;
    if IsBrace(c) {
      assert t[0] == c && t[1] == c && t[2..] == rest;
    } else {
      assert t[0] == c && t[1..] == rest;
    }
  }

  /** One step of parsing: a replacement field. */
  lemma ParseHoleStep(n: string, rest: string)
    requires ValidName(n)
    ensures Parse("{" + n + "}" + rest) == Prepend(Hole(n), Parse(rest))
  {
    var t := "{" + n + "}" + rest;
    assert t[1..] == n + ("}" + rest);
    FieldLengthOfPlain(n, "}" + rest);
    assert t[1..1 + |n|] == n;
    assert t[1 + |n| + 1..] == rest;
  }

  lemma {:induction false} ParseUnparse(toks: seq<Token>)
    requires ValidTokens(toks)
    ensures Parse(Unparse(toks)) == Some(toks)
  {
    if toks != [] {
      var rest := Unparse(toks[1..]);
      assert ValidTokens(toks[1..]) by {
        forall i | 0 <= i < |toks[1..]| && toks[1..][i].Hole?
          ensures ValidName(toks[1..][i].name)
        {
          assert toks[1..][i] == toks[i + 1];
        }
      }
      ParseUnparse(toks[1..]);
      assert toks == [toks[0]] + toks[1..];
      match toks[0]
      case Lit(c) =>
        ParseLitStep(c, rest);
      case Hole(n) =>
        assert ValidName(toks[0].name);
        ParseHoleStep(n, rest);
    }
  }

  /** Unparsing one more token in front of tokens that unparse to `rest`. */
  lemma UnparseCons(tok: Token, ts: seq<Token>, piece: string, rest: string)
    requires ValidTokens(ts) && Unparse(ts) == rest
    requires tok.Hole? ==> ValidName(tok.name)
    requires piece == match tok
                      case Lit(c) => if IsBrace(c) then [c, c] else [c]
                      case Hole(n) => "{" + n + "}"
    ensures ValidTokens([tok] + ts) && Unparse([tok] + ts) == piece + rest
  {
    var toks := [tok] + ts;
    assert toks[0] == tok && toks[1..] == ts;
    forall i | 0 <= i < |toks| && toks[i].Hole?
      ensures ValidName(toks[i].name)
    {
      if i > 0 { assert toks[i] == ts[i - 1]; }
    }
  }

  /** Parsing `t` succeeds only on text that unparses back to `t`. */
  predicate RoundTrips(t: string) {
    Parse(t).Some? ==> ValidTokens(Parse(t).value) && Unparse(Parse(t).value) == t
  }

  lemma EscapeRoundTrips(t: string)
    requires |t| > 1 && IsBrace(t[0]) && t[1] == t[0] && RoundTrips(t[2..])
    ensures RoundTrips(t)
  {
    if Parse(t).Some? {
      assert Parse(t) == Prepend(Lit(t[0]), Parse(t[2..]));
      UnparseCons(Lit(t[0]), Parse(t[2..]).value, [t[0], t[0]], t[2..]);
      assert t == [t[0], t[0]] + t[2..];
    }
  }

  /** A text that opens with a field is the braced name followed by the rest. */
  lemma FieldSplit(t: string, k: nat)
    requires 0 < k < |t| && t[0] == '{' && t[k] == '}'
    ensures t == "{" + t[1..k] + "}" + t[k + 1..]
  {
    assert t == t[..k + 1] + t[k + 1..];
    assert t[..k + 1] == [t[0]] + t[1..k] + [t[k]];
  }

  /** When a text opening with a field parses, it is that field followed by the parse of the rest. */
  lemma FieldParses(t: string, k: nat)
    requires |t| > 1 && t[0] == '{' && t[1] != '{' && k == 1 + FieldLength(t[1..])
    requires Parse(t).Some?
    ensures k < |t| && t[k] == '}' && ValidName(t[1..k])
    ensures Parse(t) == Prepend(Hole(t[1..k]), Parse(t[k + 1..]))
  {
  }

  lemma FieldRoundTrips(t: string, k: nat)
    requires |t| > 1 && t[0] == '{' && t[1] != '{' && k == 1 + FieldLength(t[1..])
    requires k < |t| ==> RoundTrips(t[k + 1..])
    ensures RoundTrips(t)
  {
    if Parse(t).Some? {
      FieldParses(t, k);
      UnparseCons(Hole(t[1..k]), Parse(t[k + 1..]).value, "{" + t[1..k] + "}", t[k + 1..]);
      FieldSplit(t, k);
    }
  }

  lemma CharRoundTrips(t: string)
    requires |t| > 0 && !IsBrace(t[0]) && RoundTrips(t[1..])
    ensures RoundTrips(t)
  {
    if Parse(t).Some? {
      assert Parse(t) == Prepend(Lit(t[0]), Parse(t[1..]));
      UnparseCons(Lit(t[0]), Parse(t[1..]).value, [t[0]], t[1..]);
      assert t == [t[0]] + t[1..];
    }
  }

  lemma {:induction false} UnparseParse(t: string)
    ensures Parse(t).Some? ==> ValidTokens(Parse(t).value) && Unparse(Parse(t).value) == t
    decreases |t|
  {
    if t == [] {
    } else if IsBrace(t[0]) && |t| > 1 && t[1] == t[0] {
      UnparseParse(t[2..]);
      EscapeRoundTrips(t);
    } else if t[0] == '{' && |t| > 1 {
      var k := 1 + FieldLength(t[1..]);
      if k < |t| { UnparseParse(t[k + 1..]); }
      FieldRoundTrips(t, k);
    } else if !IsBrace(t[0]) {
      UnparseParse(t[1..]);
      CharRoundTrips(t);
    }
  }

  // ---------------------------------------------------------------------------
  // Rendering

  /** Rendering fails exactly when some field has no value, and then names such a field. */
  lemma {:induction false} RenderOkIff(toks: seq<Token>, kw: map<string, string>)
    ensures Render(toks, kw).Ok? <==> Holes(toks) <= kw.Keys
    ensures Render(toks, kw).Err? ==>
              Render(toks, kw).error.MissingKey? &&
              Render(toks, kw).error.name in Holes(toks) &&
              Render(toks, kw).error.name !in kw
  {
    if toks != [] {
      RenderOkIff(toks[1..], kw);
    }
  }

  /** Rendering is a homomorphism from token concatenation to string concatenation. */
  lemma {:induction false} RenderAppend(a: seq<Token>, b: seq<Token>, kw: map<string, string>)
    ensures Render(a + b, kw) ==
              match Render(a, kw)
              case Err(e) => Err(e)
              case Ok(x) =>
                match Render(b, kw)
                case Err(e) => Err(e)
                case Ok(y) => Ok(x + y)
  {
    if a == [] {
      assert a + b == b;
      if Render(b, kw).Ok? {
        assert "" + Render(b, kw).value == Render(b, kw).value;
      }
    } else {
      assert (a + b)[0] == a[0];
      assert (a + b)[1..] == a[1..] + b;
      RenderAppend(a[1..], b, kw);
      var head := if a[0].Lit? then [a[0].c] else if a[0].name in kw then kw[a[0].name] else "";
      if Render(a[1..], kw).Ok? && Render(b, kw).Ok? {
        var x, y := Render(a[1..], kw).value, Render(b, kw).value;
        assert head + (x + y) == (head + x) + y;
      }
    }
  }

  /** A field is replaced verbatim by its value, and a literal token by its character. */
  lemma RenderSingle(tok: Token, kw: map<string, string>)
    ensures tok.Lit? ==> Render([tok], kw) == Ok([tok.c])
    ensures tok.Hole? ==> Render([tok], kw) == if tok.name in kw then Ok(kw[tok.name]) else Err(MissingKey(tok.name))
  {
    assert [tok][1..] == [];
    assert Render([], kw) == Ok("");
    if tok.Lit? {
      assert [tok.c] + "" == [tok.c];
    } else if tok.name in kw {
      assert kw[tok.name] + "" == kw[tok.name];
    }
  }

  // ---------------------------------------------------------------------------
  // Brace-free text

  /** One literal token per character. */
  function Lits(s: string): (toks: seq<Token>)
    ensures |toks| == |s|
    ensures forall i :: 0 <= i < |s| ==> toks[i] == Lit(s[i])
  {
    if s == [] then [] else [Lit(s[0])] + Lits(s[1..])
  }

  lemma {:induction false} HolesAppend(a: seq<Token>, b: seq<Token>)
    ensures Holes(a + b) == Holes(a) + Holes(b)
  {
    if a == [] {
      assert a + b == b;
    } else {
      assert (a + b)[0] == a[0];
      assert (a + b)[1..] == a[1..] + b;
      HolesAppend(a[1..], b);
    }
  }

  /** Brace-free text has no fields and renders to itself. */
  lemma {:induction false} LitsOfPlain(s: string, kw: map<string, string>)
    requires Plain(s)
    ensures Holes(Lits(s)) == {}
    ensures Render(Lits(s), kw) == Ok(s)
  {
    if s != [] {
      assert Plain(s[1..]) by {
        assert forall c :: c in s[1..] ==> c in s;
      }
      LitsOfPlain(s[1..], kw);
      assert Lits(s) == [Lit(s[0])] + Lits(s[1..]);
      assert Lits(s)[1..] == Lits(s[1..]);
      assert s == [s[0]] + s[1..];
    }
  }

  // ---------------------------------------------------------------------------
  // Templates built from the front: brace-free text, then a field

  /** Brace-free text parses to one literal per character, in front of whatever follows. */
  lemma {:induction false} ParsePlain(a: string, rest: string)
    requires Plain(a)
    ensures Parse(a + rest) == match Parse(rest)
                               case None => None
                               case Some(ts) => Some(Lits(a) + ts)
  {
    if a == [] {
      assert a + rest == rest;
      if Parse(rest).Some? {
        assert Lits(a) + Parse(rest).value == Parse(rest).value;
      }
    } else {
      assert a[0] in a;
      assert Plain(a[1..]) by {
        assert forall c :: c in a[1..] ==> c in a;
      }
      ParsePlain(a[1..], rest);
      ParseLitStep(a[0], a[1..] + rest);
      assert [a[0]] + (a[1..] + rest) == a + rest;
      if Parse(rest).Some? {
        assert [Lit(a[0])] + (Lits(a[1..]) + Parse(rest).value) == Lits(a) + Parse(rest).value;
      }
    }
  }

  /**
    A template that starts with brace-free text and a field: it parses when the rest
    does, the field joins the rest's fields, and rendering substitutes the field's value
    before rendering the rest, failing first on that field.
  */
  lemma FieldThen(a: string, x: string, t: string, kw: map<string, string>)
    requires Plain(a) && ValidName(x) && Parse(t).Some?
    ensures var u := a + ("{" + x + "}") + t;
      && Parse(u).Some?
      && Holes(Parse(u).value) == {x} + Holes(Parse(t).value)
      && FormatMap(u, kw) ==
           if x !in kw then Err(MissingKey(x))
           else match FormatMap(t, kw)
                case Err(e) => Err(e)
                case Ok(s) => Ok(a + kw[x] + s)
  {
    var ts := Parse(t).value;
    var f := "{" + x + "}" + t;
    assert a + ("{" + x + "}") + t == a + f;
    ParseHoleStep(x, t);
    ParsePlain(a, f);
    var toks := Lits(a) + ([Hole(x)] + ts);
    assert Parse(a + f) == Some(toks);
    LitsOfPlain(a, kw);
    HolesAppend(Lits(a), [Hole(x)] + ts);
    HolesAppend([Hole(x)], ts);
    assert Holes([Hole(x)]) == {x};
    RenderAppend(Lits(a), [Hole(x)] + ts, kw);
    RenderAppend([Hole(x)], ts, kw);
    RenderSingle(Hole(x), kw);
    if x in kw && Render(ts, kw).Ok? {
      var s := Render(ts, kw).value;
      assert a + (kw[x] + s) == a + kw[x] + s;
    }
  }
}

/**
 * The template engine of the i18n object (`i18n.template`, script.js:64-71):
 * one global `String.replace` with the pattern `\{(\w+)\}` and a callback
 * that answers `data[key]` when that value is truthy and `""` otherwise.
 *
 * The data object is a `map<string, string>`; a value is truthy when the key
 * is present and its string is not empty.
 */
module TemplateEngine {
  import opened Wrappers

  /** The JavaScript `\w` class without the `u` flag: ASCII letters, digits, `_`. */
  predicate IsWordChar(c: char) {
    ('a' <= c <= 'z') || ('A' <= c <= 'Z') || ('0' <= c <= '9') || c == '_'
  }

  /** A `\w+` run: non-empty and made of word characters only. */
  predicate IsWord(w: string) {
    |w| > 0 && forall i :: 0 <= i < |w| ==> IsWordChar(w[i])
  }

  /** Length of the longest prefix of `s` made of word characters (greedy `\w+`). */
  function WordRun(s: string): (n: nat)
    ensures n <= |s|
    ensures forall i :: 0 <= i < n ==> IsWordChar(s[i])
    ensures n < |s| ==> !IsWordChar(s[n])
  {
    if s == [] || !IsWordChar(s[0]) then 0 else 1 + WordRun(s[1..])
  }

  /**
   * The key of the `{key}` match that starts at the first character of `s`,
   * if the pattern matches there.  `\w+` is greedy and `}` is not a word
   * character, so backtracking can never help: the pattern matches iff the
   * maximal word run after `{` is non-empty and is followed by `}`.
   */
  function MatchAt(s: string): (r: Option<string>)
    ensures r.Some? ==> IsWord(r.value) && |r.value| + 2 <= |s|
    ensures r.Some? ==> s[..|r.value| + 2] == "{" + r.value + "}"
  {
    if |s| > 0 && s[0] == '{' then
      var n := WordRun(s[1..]);
      if 0 < n && n + 1 < |s| && s[n + 1] == '}' then
        assert forall i :: 0 <= i < n ==> s[1..n + 1][i] == s[1..][i];
        Some(s[1..n + 1])
      else None
    else None
  }

  /** `data[key] ? data[key] : ''` for string-valued data. */
  function Lookup(data: map<string, string>, key: string): (v: string)
    ensures v != "" <==> key in data && data[key] != ""
    ensures v != "" ==> v == data[key]
  {
    if key in data && data[key] != "" then data[key] else ""
  }

  /**
   * `str.replace(/\{(\w+)\}/g, ...)`: scans from the left; where a match
   * starts, emits the looked-up value and resumes after the `}`; elsewhere
   * copies one character.  Substituted values are never rescanned.
   */
  function Template(s: string, data: map<string, string>): string
    decreases |s|
  {
    if s == [] then []
    else
      match MatchAt(s)
      case Some(key) => Lookup(data, key) + Template(s[|key| + 2..], data)
      case None => [s[0]] + Template(s[1..], data)
  }

  /** The converse of `MatchAt`'s contract: a `{word}` prefix is always matched. */
  lemma MatchAtWord(w: string, s: string)
    requires IsWord(w) && "{" + w + "}" <= s
    ensures MatchAt(s) == Some(w)
  {
    var t := s[1..];
    assert t[..|w|] == w && t[|w|] == '}';
    assert !IsWordChar(t[|w|]);
    assert forall i :: 0 <= i < |w| ==> IsWordChar(t[i]);
    assert WordRun(t) == |w|;
    assert s[1..|w| + 1] == w;
  }

  /** A `{word}` token is replaced by its looked-up value and scanning resumes after it. */
  lemma TemplateToken(w: string, rest: string, data: map<string, string>)
    requires IsWord(w)
    ensures Template("{" + (w + ("}" + rest)), data) == Lookup(data, w) + Template(rest, data)
  {
    var s := "{" + (w + ("}" + rest));
    assert "{" + w + "}" <= s by {
      assert s == ("{" + w + "}") + rest;
    }
    MatchAtWord(w, s);
    assert s[|w| + 2..] == rest;
  }

  /** A position where no match starts contributes its own character. */
  lemma TemplateLiteralStep(s: string, data: map<string, string>)
    requires s != [] && MatchAt(s) == None
    ensures Template(s, data) == [s[0]] + Template(s[1..], data)
  {
  }

  /** A prefix without `{` is copied through verbatim. */
  lemma {:induction false} TemplateLiteralPrefix(a: string, b: string, data: map<string, string>)
    requires '{' !in a
    ensures Template(a + b, data) == a + Template(b, data)
  {
    if a == [] {
      assert a + b == b;
    } else {
      var rest := a[1..];
      assert '{' !in rest by { assert forall i :: 0 <= i < |rest| ==> rest[i] == a[i + 1]; }
      calc {
        Template(a + b, data);
        { assert (a + b)[0] == a[0]; TemplateLiteralStep(a + b, data); }
        [a[0]] + Template((a + b)[1..], data);
        { assert (a + b)[1..] == rest + b; }
        [a[0]] + Template(rest + b, data);
        { TemplateLiteralPrefix(rest, b, data); }
        [a[0]] + (rest + Template(b, data));
        { assert [a[0]] + (rest + Template(b, data)) == ([a[0]] + rest) + Template(b, data);
          assert [a[0]] + rest == a; }
        a + Template(b, data);
      }
    }
  }

  /** A string without `{` holds no token and is returned unchanged. */
  lemma {:induction false} TemplateNoBrace(s: string, data: map<string, string>)
    requires '{' !in s
    ensures Template(s, data) == s
  {
    TemplateLiteralPrefix(s, [], data);
    assert s + [] == s;
  }

  // ---------------------------------------------------------------------
  // An independent view: the pieces the regular expression cuts a string into.

  /** A piece of a template: one literal character, or a `{key}` match. */
  datatype Piece = Lit(c: char) | Hole(key: string)

  /** The source text of one piece. */
  function PieceText(p: Piece): string {
    match p
    case Lit(c) => [c]
    case Hole(k) => "{" + k + "}"
  }

  /** What one piece becomes: a literal is copied, a hole becomes its looked-up value. */
  function PieceValue(p: Piece, data: map<string, string>): string {
    match p
    case Lit(c) => [c]
    case Hole(k) => Lookup(data, k)
  }

  /**
   * The left-to-right sequence of pieces: a hole wherever a match starts
   * (`ScanStep`, `ScanToken`), a literal character elsewhere.
   */
  function Scan(s: string): (ps: seq<Piece>)
    ensures forall i :: 0 <= i < |ps| && ps[i].Hole? ==> IsWord(ps[i].key)
    decreases |s|
  {
    if s == [] then []
    else
      match MatchAt(s)
      case Some(key) => [Hole(key)] + Scan(s[|key| + 2..])
      case None => [Lit(s[0])] + Scan(s[1..])
  }

  /** The source text of a sequence of pieces. */
  function Unparse(ps: seq<Piece>): string {
    if ps == [] then [] else PieceText(ps[0]) + Unparse(ps[1..])
  }

  /** Literal pieces are copied, holes become their looked-up value. */
  function Render(ps: seq<Piece>, data: map<string, string>): string {
    if ps == [] then [] else PieceValue(ps[0], data) + Render(ps[1..], data)
  }

  /** Unparsing a sequence that starts with `p` starts with `p`'s text. */
  lemma UnparseCons(p: Piece, ps: seq<Piece>)
    ensures Unparse([p] + ps) == PieceText(p) + Unparse(ps)
  {
    assert ([p] + ps)[1..] == ps;
  }

  /** Rendering a sequence that starts with `p` starts with `p`'s value. */
  lemma RenderCons(p: Piece, ps: seq<Piece>, data: map<string, string>)
    ensures Render([p] + ps, data) == PieceValue(p, data) + Render(ps, data)
  {
    assert ([p] + ps)[1..] == ps;
  }

  /**
   * The first scanned piece, the length of source text it covers, and what
   * `Template` makes of it.
   */
  lemma ScanStep(s: string) returns (p: Piece, n: nat)
    requires s != []
    ensures 0 < n <= |s| && PieceText(p) == s[..n]
    ensures Scan(s) == [p] + Scan(s[n..])
    ensures forall data :: Template(s, data) == PieceValue(p, data) + Template(s[n..], data)
    ensures MatchAt(s).Some? ==> p == Hole(MatchAt(s).value)
    ensures MatchAt(s).None? ==> p == Lit(s[0])
  {
    match MatchAt(s)
    case Some(key) =>
      p, n := Hole(key), |key| + 2;
    case None =>
      p, n := Lit(s[0]), 1;
  }

  /** Every `{word}` at the front is scanned as one hole, and scanning resumes after it. */
  lemma ScanToken(w: string, rest: string)
    requires IsWord(w)
    ensures Scan("{" + (w + ("}" + rest))) == [Hole(w)] + Scan(rest)
  {
    var s := "{" + (w + ("}" + rest));
    assert "{" + w + "}" <= s by {
      assert s == ("{" + w + "}") + rest;
    }
    MatchAtWord(w, s);
    assert s[|w| + 2..] == rest;
  }

  /** Scanning loses nothing: the pieces spell the original string. */
  lemma {:induction false} ScanRoundTrip(s: string)
    ensures Unparse(Scan(s)) == s
    decreases |s|
  {
    if s != [] {
      var p, n := ScanStep(s);
      var tail := Scan(s[n..]);
      calc {
        Unparse(Scan(s));
        Unparse([p] + tail);
        { UnparseCons(p, tail); }
        PieceText(p) + Unparse(tail);
        { ScanRoundTrip(s[n..]); }
        s[..n] + s[n..];
        { assert s[..n] + s[n..] == s; }
        s;
      }
    }
  }

  /**
   * The substitution is exactly: every literal piece unchanged, every match
   * replaced by its value, in one pass (values are not scanned again).
   */
  lemma {:induction false} TemplateRendersScan(s: string, data: map<string, string>)
    ensures Template(s, data) == Render(Scan(s), data)
    decreases |s|
  {
    if s != [] {
      var p, n := ScanStep(s);
      var tail := Scan(s[n..]);
      calc {
        Template(s, data);
        PieceValue(p, data) + Template(s[n..], data);
        { TemplateRendersScan(s[n..], data); }
        PieceValue(p, data) + Render(tail, data);
        { RenderCons(p, tail, data); }
        Render([p] + tail, data);
        Render(Scan(s), data);
      }
    }
  }

  // ---------------------------------------------------------------------
  // Worked cases.

  /** One `{key}` slot between brace-free text: only the slot changes. */
  lemma TemplateSlot(before: string, key: string, after: string, data: map<string, string>)
    requires '{' !in before && '{' !in after && IsWord(key)
    ensures Template(before + ("{" + (key + ("}" + after))), data) == before + (Lookup(data, key) + after)
  {
    TemplateLiteralPrefix(before, "{" + (key + ("}" + after)), data);
    TemplateToken(key, after, data);
    TemplateNoBrace(after, data);
  }

  /**
   * `template("Hello {username}!", {username: name})` is `"Hello " + name + "!"`
   * (so `"Hello Sam!"` for `"Sam"` and `"Hello !"` for an empty name), and
   * `"Hello !"` when the key is missing.
   */
  lemma HelloExamples(tpl: string, name: string, data: map<string, string>)
    requires tpl == "Hello {username}!" && "username" !in data
    ensures Template(tpl, map["username" := name]) == "Hello " + (name + "!")
    ensures Template(tpl, data) == "Hello " + "!"
  {
    var before, key, after := "Hello ", "username", "!";
    assert IsWord(key) by {
      forall i | 0 <= i < |key| ensures IsWordChar(key[i]) { }
    }
    assert '{' !in before && '{' !in after;
    assert before + ("{" + (key + ("}" + after))) == tpl;
    TemplateSlot(before, key, after, map["username" := name]);
    TemplateSlot(before, key, after, data);
  }

  /** `{}` is not a match: both braces stay. */
  lemma EmptyBracesStayLiteral(rest: string, data: map<string, string>)
    ensures Template("{}" + rest, data) == "{}" + Template(rest, data)
  {
    var s := "{}" + rest;
    assert s[1..] == "}" + rest;
    calc {
      Template(s, data);
      { assert WordRun(s[1..]) == 0 by { assert !IsWordChar(s[1..][0]); }
        TemplateLiteralStep(s, data); }
      [s[0]] + Template(s[1..], data);
      { TemplateLiteralPrefix("}", rest, data); }
      ['{'] + ("}" + Template(rest, data));
      { assert ['{'] + ("}" + Template(rest, data)) == (['{'] + "}") + Template(rest, data); }
      "{}" + Template(rest, data);
    }
  }

  /**
   * `{` followed by a word and then neither a word character nor `}` (as in
   * `{a-b}`) is not a match: the `{` and the word stay, and scanning goes on
   * at the stray character.
   */
  lemma {:induction false} BrokenTokenStaysLiteral(w: string, c: char, rest: string, data: map<string, string>)
    requires IsWord(w) && !IsWordChar(c) && c != '}'
    ensures Template("{" + (w + ([c] + rest)), data) == "{" + (w + Template([c] + rest, data))
  {
    var tail := [c] + rest;
    var s := "{" + (w + tail);
    assert s[1..] == w + tail;
    assert WordRun(s[1..]) == |w| by {
      assert (w + tail)[|w|] == c;
      assert forall i :: 0 <= i < |w| ==> (w + tail)[i] == w[i];
    }
    TemplateLiteralStep(s, data);
    assert '{' !in w by {
      assert forall i :: 0 <= i < |w| ==> IsWordChar(w[i]);
    }
    TemplateLiteralPrefix(w, tail, data);
  }

  /**
   * Whatever a non-empty value holds, tokens such as `{x}` included, it is
   * inserted verbatim, and scanning resumes in the template after the `}`,
   * never inside the inserted value.
   */
  lemma ValuesAreNotRescanned(w: string, rest: string, data: map<string, string>)
    requires IsWord(w) && w in data && data[w] != ""
    ensures Template("{" + (w + ("}" + rest)), data) == data[w] + Template(rest, data)
  {
    TemplateToken(w, rest, data);
  }

  /**
   * Single pass: substituting an empty value for an inner token can leave a
   * new token behind, which only a second application expands, so `Template`
   * is not idempotent (`{b{a}}` becomes `{b}`, and `{b}` then becomes `data[b]`).
   */
  lemma SinglePassNotIdempotent(outer: string, inner: string, data: map<string, string>)
    requires IsWord(outer) && IsWord(inner) && Lookup(data, inner) == ""
    ensures Template("{" + (outer + ("{" + (inner + "}}"))), data) == "{" + (outer + "}")
    ensures Template("{" + (outer + "}"), data) == Lookup(data, outer)
  {
    var tail := inner + "}}";
    calc {
      Template("{" + (outer + ("{" + tail)), data);
      { BrokenTokenStaysLiteral(outer, '{', tail, data); }
      "{" + (outer + Template("{" + tail, data));
      { assert tail == inner + ("}" + "}");
        TemplateToken(inner, "}", data); }
      "{" + (outer + (Lookup(data, inner) + Template("}", data)));
      { TemplateNoBrace("}", data); }
      "{" + (outer + "}");
    }
    TemplateToken(outer, "", data);
    assert "}" + "" == "}";
  }
}

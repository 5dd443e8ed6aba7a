/**
 Inlining query parameters: for each parameter in turn the first `?` left in the text is replaced by its
 rendering. The reference gives the i-th `?` of the original query the i-th rendering, in one pass.
 */
module RawSql {
  import opened Options

  /** An array element: text is quoted, anything else enters by its own rendering. */
  datatype Element = Text(text: string) | Other(rendering: string)

  /** A parameter by its JavaScript type; numbers and objects come with their `toString`. */
  datatype Param =
    | Str(text: string)
    | Num(rendering: string)
    | Bool(value: bool)
    | Null
    | Array(elements: seq<Element>)
    | Object(rendering: string)
    | Undefined

  function Quoted(text: string): string { "\"" + text + "\"" }

  function RenderElement(e: Element): string {
    match e
    case Text(t) => Quoted(t)
    case Other(r) => r
  }

  function Join(elements: seq<Element>): string {
    if elements == [] then ""
    else if |elements| == 1 then RenderElement(elements[0])
    else RenderElement(elements[0]) + "," + Join(elements[1..])
  }

  /** The replacement text of a parameter; `undefined` replaces nothing. */
  function Rendering(p: Param): Option<string> {
    match p
    case Str(t) => Some(Quoted(t))
    case Num(r) => Some(r)
    case Bool(b) => Some(if b then "true" else "false")
    case Null => Some("null")
    case Array(es) => Some(Join(es))
    case Object(r) => Some(r)
    case Undefined => None
  }

  // ---------------------------------------------------------------- String.prototype.replace

  /** What follows the dollar sign of an expanded pair. */
  const PAIRED := "$&`'"

  /** The replacement text with `$$`, `$&`, `` $` `` and `$'` expanded. */
  function Expand(template: string, before: string, matched: string, after: string): string
    decreases |template|
  {
    if |template| >= 2 && template[0] == '$' && template[1] in PAIRED then
      (match template[1]
       case '$' => "$"
       case '&' => matched
       case '`' => before
       case _ => after)
      + Expand(template[2..], before, matched, after)
    else if template == "" then ""
    else [template[0]] + Expand(template[1..], before, matched, after)
  }

  /** The position of the first `?`, or the length of the text. */
  function FirstMark(text: string): (i: nat)
    ensures i <= |text| && '?' !in text[..i] && (i < |text| ==> text[i] == '?')
  {
    if text == "" || text[0] == '?' then 0
    else
      var i := FirstMark(text[1..]) + 1;
      assert text[..i] == [text[0]] + text[1..][..i - 1];
      i
  }

  function ReplaceFirst(text: string, rendering: string): string {
    var i := FirstMark(text);
    if i == |text| then text
    else text[..i] + Expand(rendering, text[..i], "?", text[i + 1..]) + text[i + 1..]
  }

  /** What the parameters render to, in order. */
  function Renderings(params: seq<Param>): seq<string> {
    if params == [] then []
    else
      var n := |params| - 1;
      match Rendering(params[n])
      case None => Renderings(params[..n])
      case Some(r) => Renderings(params[..n]) + [r]
  }

  function Sequential(query: string, renderings: seq<string>): string {
    if renderings == [] then query
    else
      var n := |renderings| - 1;
      ReplaceFirst(Sequential(query, renderings[..n]), renderings[n])
  }

  // ---------------------------------------------------------------- the positional reference

  /** The i-th `?` of the query becomes the i-th rendering; surplus marks and surplus renderings stay out. */
  function Positional(query: string, renderings: seq<string>): string
    decreases |query|
  {
    if query == "" || renderings == [] then query
    else if query[0] == '?' then renderings[0] + Positional(query[1..], renderings[1..])
    else [query[0]] + Positional(query[1..], renderings)
  }

  /** The text contains one of the pairs that `replace` expands. */
  predicate HasPair(text: string) {
    exists i :: 0 <= i < |text| - 1 && text[i] == '$' && text[i + 1] in PAIRED
  }

  predicate IsPlain(rendering: string) {
    '?' !in rendering && !HasPair(rendering)
  }

  ghost predicate Plain(renderings: seq<string>) {
    forall i :: 0 <= i < |renderings| ==> IsPlain(renderings[i])
  }

  /** `buildRawSqlFromQueryBuilder` after the query builder gave its query and parameters. */
  method BuildRawSql(query: string, params: seq<Param>) returns (rawSql: string)
    ensures rawSql == Sequential(query, Renderings(params))
    ensures Plain(Renderings(params)) ==> rawSql == Positional(query, Renderings(params))
  {
    rawSql := query;
    for i := 0 to |params|
      invariant rawSql == Sequential(query, Renderings(params[..i]))
    {
      assert params[..i + 1][..i] == params[..i];
      var before := Renderings(params[..i]);
      assert forall r :: (before + [r])[..|before|] == before;
      match params[i] {
        case Str(text) => rawSql := ReplaceFirst(rawSql, "\"" + text + "\"");
        case Array(elements) => rawSql := ReplaceFirst(rawSql, Join(elements));
        case Null => rawSql := ReplaceFirst(rawSql, "null");
        case Object(rendering) => rawSql := ReplaceFirst(rawSql, rendering);
        case Num(rendering) => rawSql := ReplaceFirst(rawSql, rendering);
        case Bool(value) => rawSql := ReplaceFirst(rawSql, if value then "true" else "false");
        case Undefined =>
      }
    }
    assert params[..|params|] == params;
    if Plain(Renderings(params)) {
      SequentialIsPositional(query, Renderings(params));
    }
  }

  // ---------------------------------------------------------------- renderings

  /** A text parameter enters between two double quotes and otherwise as it is; the other scalars enter bare. */
  lemma ScalarsRender(text: string, number: string)
    ensures var r := Rendering(Str(text));
            && r.Some? && |r.value| == |text| + 2 && r.value[0] == r.value[|text| + 1] == '\"'
            && r.value[1..|text| + 1] == text
    ensures Rendering(Num(number)) == Rendering(Object(number)) == Some(number)
    ensures Rendering(Bool(true)) == Some("true") && Rendering(Bool(false)) == Some("false")
    ensures Rendering(Null) == Some("null") && Rendering(Undefined) == None
  {
  }

  /** An array enters as its elements with commas between them: one element like a scalar, and a longer array as its
      parts. */
  lemma {:induction false} ArraysRender(first: seq<Element>, second: seq<Element>, text: string)
    requires first != [] && second != []
    ensures Rendering(Array(first + second)).value
            == Rendering(Array(first)).value + "," + Rendering(Array(second)).value
    ensures Rendering(Array([Text(text)])) == Rendering(Str(text))
    ensures Rendering(Array([Other(text)])) == Rendering(Num(text)) && Rendering(Array([])) == Some("")
    decreases |first|
  {
    if |first| == 1 {
      assert (first + second)[1..] == second;
    } else {
      assert (first + second)[1..] == first[1..] + second;
      ArraysRender(first[1..], second, text);
      var a, b, c := RenderElement(first[0]), Join(first[1..]), Join(second);
      assert a + "," + (b + "," + c) == (a + "," + b) + "," + c;
    }
  }

  /** What the expanded pairs of a parameter become: a dollar sign, the mark itself, the text before the mark and the
      text after it. */
  lemma PairsBecome(before: string, after: string)
    requires '?' !in before
    ensures ReplaceFirst(before + "?" + after, "$$") == before + "$" + after
    ensures ReplaceFirst(before + "?" + after, "$&") == before + "?" + after
    ensures ReplaceFirst(before + "?" + after, "$`") == before + before + after
    ensures ReplaceFirst(before + "?" + after, "$'") == before + after + after
  {
    var query := before + "?" + after;
    assert query[..|before|] == before && query[|before| + 1..] == after;
    FirstMarkIs(query, |before|);
    forall c | c in PAIRED ensures Expand(['$', c], before, "?", after) == PairMeans(c, before, after) {
      assert ['$', c][2..] == "";
    }
    assert "$$" == ['$', '$'] && "$&" == ['$', '&'] && "$`" == ['$', '`'] && "$'" == ['$', '\''];
  }

  function PairMeans(c: char, before: string, after: string): string {
    if c == '$' then "$" else if c == '&' then "?" else if c == '`' then before else after
  }

  // ---------------------------------------------------------------- sequential equals positional

  lemma {:induction false} ExpandPlain(template: string, before: string, matched: string, after: string)
    requires !HasPair(template)
    ensures Expand(template, before, matched, after) == template
    decreases |template|
  {
    if template != "" {
      assert forall i :: 0 <= i < |template[1..]| ==> template[1..][i] == template[i + 1];
      ExpandPlain(template[1..], before, matched, after);
    }
  }

  /** Text without marks in front of the query is copied. */
  lemma {:induction false} PositionalCopies(plain: string, query: string, renderings: seq<string>)
    requires '?' !in plain
    ensures Positional(plain + query, renderings) == plain + Positional(query, renderings)
    decreases |plain|
  {
    if plain == "" {
      assert plain + query == query;
    } else if renderings != [] {
      assert (plain + query)[1..] == plain[1..] + query;
      PositionalCopies(plain[1..], query, renderings);
    }
  }

  lemma ReplaceAtMark(query: string, i: nat, r: string)
    requires i < |query| && query[i] == '?' && '?' !in query[..i] && !HasPair(r)
    ensures ReplaceFirst(query, r) == query[..i] + r + query[i + 1..]
  {
    FirstMarkIs(query, i);
    ExpandPlain(r, query[..i], "?", query[i + 1..]);
  }

  lemma PositionalAtMark(head: string, after: string, r: string, rest: seq<string>)
    requires '?' !in head
    ensures Positional(head + ("?" + after), [r] + rest) == head + (r + Positional(after, rest))
  {
    var tail := "?" + after;
    PositionalCopies(head, tail, [r] + rest);
    assert tail[1..] == after && ([r] + rest)[1..] == rest;
  }

  lemma FilledAtMark(head: string, after: string, r: string, rest: seq<string>)
    requires '?' !in head && '?' !in r
    ensures Positional(head + ("?" + after), [r] + rest) == Positional(head + r + after, rest)
  {
    PositionalAtMark(head, after, r, rest);
    PositionalCopies(head + r, after, rest);
  }

  lemma NoMarkNoChange(query: string, r: string, rest: seq<string>)
    requires '?' !in query
    ensures Positional(query, rest) == query && ReplaceFirst(query, r) == query
  {
    assert query[..|query|] == query && query + "" == query;
    PositionalCopies(query, "", rest);
  }

  /** Replacing the first mark leaves the positional filling of the rest as it was. */
  lemma FirstThenRest(query: string, r: string, rest: seq<string>)
    requires IsPlain(r)
    ensures Positional(query, [r] + rest) == Positional(ReplaceFirst(query, r), rest)
  {
    var i := FirstMark(query);
    if i == |query| {
      assert query[..i] == query;
      NoMarkNoChange(query, r, rest);
      NoMarkNoChange(query, r, [r] + rest);
    } else {
      assert query == query[..i] + ("?" + query[i + 1..]);
      ReplaceAtMark(query, i, r);
      FilledAtMark(query[..i], query[i + 1..], r, rest);
    }
  }

  lemma {:induction false} SequentialFromFront(query: string, r: string, rest: seq<string>)
    ensures Sequential(query, [r] + rest) == Sequential(ReplaceFirst(query, r), rest)
    decreases |rest|
  {
    var all := [r] + rest;
    if rest == [] {
      assert all == [r] && [r][..0] == [];
      assert Sequential(query, [r]) == ReplaceFirst(Sequential(query, []), r);
    } else {
      assert all[..|all| - 1] == [r] + rest[..|rest| - 1];
      SequentialFromFront(query, r, rest[..|rest| - 1]);
    }
  }

  /** For every query, replacing one parameter after the other is positional substitution as long as no
      rendering contains `?` or an expanded pair; a lone `$` does no harm. */
  lemma {:induction false} SequentialIsPositional(query: string, renderings: seq<string>)
    requires Plain(renderings)
    ensures Sequential(query, renderings) == Positional(query, renderings)
    decreases |renderings|
  {
    if renderings != [] {
      var r, rest := renderings[0], renderings[1..];
      assert renderings == [r] + rest;
      assert forall i :: 0 <= i < |rest| ==> rest[i] == renderings[i + 1];
      SequentialFromFront(query, r, rest);
      FirstThenRest(query, r, rest);
      SequentialIsPositional(ReplaceFirst(query, r), rest);
    }
  }

  lemma FirstMarkIs(text: string, i: nat)
    requires i < |text| && text[i] == '?' && '?' !in text[..i]
    ensures FirstMark(text) == i
  {
  }

  /** A mark inside an earlier parameter takes the place of the next placeholder. */
  lemma MarkInParameterIsFilled()
    ensures Sequential("??", ["a?", "b"]) == "ab?" && Positional("??", ["a?", "b"]) == "a?b"
  {
  }

  /** A dollar pair inside a parameter is rewritten by the replacement itself. */
  lemma DollarInParameterIsExpanded()
    ensures Sequential("?", ["$$"]) == "$" && Positional("?", ["$$"]) == "$$"
  {
  }

  // ---------------------------------------------------------------- which parameters are inlined faithfully

  /** In every query, with any plain renderings after it, the rendering lands on the first mark as it is. */
  ghost predicate Faithful(r: string) {
    forall query, rest :: Plain(rest) ==> Sequential(query, [r] + rest) == Positional(query, [r] + rest)
  }

  function Dollars(k: nat): string {
    if k == 0 then "" else "$" + Dollars(k - 1)
  }

  lemma {:induction false} DollarsAppend(k: nat, s: string)
    ensures Dollars(k + 1) + s == Dollars(k) + ("$" + s)
    decreases k
  {
    if k > 0 {
      DollarsAppend(k - 1, s);
      assert Dollars(k + 1) + s == "$" + (Dollars(k) + s);
      assert Dollars(k) + ("$" + s) == "$" + (Dollars(k - 1) + ("$" + s));
    }
  }

  /** Between two letters an expansion never puts dollar signs in front of its own template. */
  lemma {:induction false} ExpansionGainsNoDollars(s: string, k: nat)
    requires k >= 1
    ensures Expand(s, "x", "?", "x") != Dollars(k) + s
    decreases |s|
  {
    var e := Expand(s, "x", "?", "x");
    assert Dollars(k) + s == "$" + (Dollars(k - 1) + s);
    if e == Dollars(k) + s {
      assert e[0] == '$';
      if |s| >= 2 && s[0] == '$' && s[1] in PAIRED {
        var rest := Expand(s[2..], "x", "?", "x");
        assert s == "$" + ("$" + s[2..]) && e == "$" + rest;
        assert rest == e[1..] && e[1..] == Dollars(k - 1) + s;
        DollarsAppend(k - 1, "$" + s[2..]);
        DollarsAppend(k, s[2..]);
        ExpansionGainsNoDollars(s[2..], k + 1);
      } else {
        var rest := Expand(s[1..], "x", "?", "x");
        assert s == "$" + s[1..] && e == "$" + rest;
        assert rest == e[1..] && e[1..] == Dollars(k - 1) + s;
        DollarsAppend(k - 1, s[1..]);
        ExpansionGainsNoDollars(s[1..], k);
      }
    }
  }

  lemma {:induction false} PairsChange(r: string)
    requires HasPair(r)
    ensures Expand(r, "x", "?", "x") != r
    decreases |r|
  {
    var e := Expand(r, "x", "?", "x");
    if r[0] == '$' && r[1] in PAIRED {
      if e == r {
        assert r == "$" + ("$" + r[2..]) && e == "$" + Expand(r[2..], "x", "?", "x");
        assert Expand(r[2..], "x", "?", "x") == e[1..] && r[1..] == "$" + r[2..];
        assert Dollars(1) == "$";
        ExpansionGainsNoDollars(r[2..], 1);
      }
    } else {
      var i :| 0 <= i < |r| - 1 && r[i] == '$' && r[i + 1] in PAIRED;
      assert r[1..][i - 1] == '$' && r[1..][i] in PAIRED;
      PairsChange(r[1..]);
      assert e == [r[0]] + Expand(r[1..], "x", "?", "x") && e[1..] == Expand(r[1..], "x", "?", "x");
    }
  }

  lemma OneParameter(r: string)
    ensures Sequential("x?x", [r]) == "x" + Expand(r, "x", "?", "x") + "x"
    ensures Positional("x?x", [r]) == "x" + r + "x"
  {
    assert [r][..0] == [] && [r][1..] == [];
    FirstMarkIs("x?x", 1);
    assert "x?x"[..1] == "x" && "x?x"[2..] == "x" && "x?x"[1..] == "?x" && "?x"[1..] == "x";
    assert Positional("?x", [r]) == r + Positional("x", []);
  }

  lemma FilledSecond(r: string, i: nat)
    requires i < |r| && r[i] == '?' && '?' !in r[..i]
    ensures |Sequential(r + "?", ["a"])| > i && Sequential(r + "?", ["a"])[i] == 'a'
  {
  }

  lemma FilledFirst(r: string)
    requires !HasPair(r)
    ensures Sequential("??", [r] + ["a"]) == Sequential(r + "?", ["a"])
    ensures r <= Positional("??", [r] + ["a"])
  {
    SequentialFromFront("??", r, ["a"]);
    ReplaceAtMark("??", 0, r);
    assert "??"[..0] + r + "??"[1..] == r + "?";
    var tail := Positional("??"[1..], ([r] + ["a"])[1..]);
    assert Positional("??", [r] + ["a"]) == r + tail;
  }

  /** A mark in a rendering without pairs is filled by the next parameter. */
  lemma MarkIsFilled(r: string)
    requires '?' in r && !HasPair(r)
    ensures Sequential("??", [r] + ["a"]) != Positional("??", [r] + ["a"])
  {
    var i := FirstMark(r);
    assert r[..|r|] == r;
    FilledFirst(r);
    FilledSecond(r, i);
  }

  lemma FramedTextsDiffer(a: string, b: string)
    requires a != b
    ensures "x" + a + "x" != "x" + b + "x"
  {
    assert ("x" + a + "x")[1..|a| + 1] == a && ("x" + b + "x")[1..|b| + 1] == b;
    assert |"x" + a + "x"| == |a| + 2 && |"x" + b + "x"| == |b| + 2;
  }

  /** A parameter is inlined faithfully in every query exactly when its rendering contains neither a mark nor an
      expanded pair. */
  lemma FaithfulIffPlain(r: string)
    ensures Faithful(r) <==> IsPlain(r)
  {
    if IsPlain(r) {
      forall query, rest | Plain(rest) ensures Sequential(query, [r] + rest) == Positional(query, [r] + rest) {
        SequentialIsPositional(query, [r] + rest);
      }
    } else if HasPair(r) {
      OneParameter(r);
      PairsChange(r);
      FramedTextsDiffer(Expand(r, "x", "?", "x"), r);
      assert [r] + [] == [r] && Sequential("x?x", [r] + []) != Positional("x?x", [r] + []);
    } else {
      MarkIsFilled(r);
      assert Plain(["a"]);
    }
  }
}

/**
 HTML unescaping: eight global replacements applied one after another, `&amp;` last. The reference is one
 left-to-right scan that decodes every entity where it stands and never looks at its own output.
 */
module Unescape {
  import opened Options

  /** One replacement: every occurrence of `entity` becomes `plain`. */
  datatype Rule = Rule(entity: string, plain: char)

  const RULES := [
    Rule("&quot;", '\"'), Rule("&#x27;", '\''), Rule("&lt;", '<'), Rule("&gt;", '>'),
    Rule("&#x2F;", '/'), Rule("&#x5C;", '\\'), Rule("&#96;", '`'), Rule("&amp;", '&')]

  /** `text.replace(/entity/g, plain)`: left to right, matches do not overlap. */
  function ReplaceAll(text: string, rule: Rule): string
    decreases |text|
  {
    if text == "" then ""
    else if rule.entity != "" && rule.entity <= text then
      [rule.plain] + ReplaceAll(text[|rule.entity|..], rule)
    else [text[0]] + ReplaceAll(text[1..], rule)
  }

  /** The replacements in the order of the list, each on the result of the one before. */
  function Passes(text: string, rules: seq<Rule>): string {
    if rules == [] then text
    else ReplaceAll(Passes(text, rules[..|rules| - 1]), rules[|rules| - 1])
  }

  /** `undefined` and `null` pass through. */
  function Unescape(text: Option<string>): Option<string> {
    match text
    case None => None
    case Some(t) => Some(Passes(t, RULES))
  }

  // ---------------------------------------------------------------- the one-scan reference

  /** The first rule whose entity the text starts with. */
  function Matching(text: string, rules: seq<Rule>): (r: Option<Rule>)
    ensures r.Some? ==> r.value in rules && r.value.entity <= text
    ensures r.None? ==> forall i :: 0 <= i < |rules| ==> !(rules[i].entity <= text)
  {
    if rules == [] then None
    else if rules[0].entity <= text then Some(rules[0])
    else Matching(text, rules[1..])
  }

  function Decode(text: string, rules: seq<Rule>): string
    decreases |text|
  {
    if text == "" then ""
    else
      var r := Matching(text, rules);
      if r.Some? && r.value.entity != "" then [r.value.plain] + Decode(text[|r.value.entity|..], rules)
      else [text[0]] + Decode(text[1..], rules)
  }

  /** The character-by-character escaping that the rules undo. */
  function EncodeChar(c: char, rules: seq<Rule>): (e: string)
    ensures Rule(e, c) in rules || (e == [c] && forall r :: r in rules ==> r.plain != c)
  {
    if rules == [] then [c]
    else if rules[0].plain == c then
      assert rules[0] == Rule(rules[0].entity, c);
      rules[0].entity
    else EncodeChar(c, rules[1..])
  }

  function Encode(text: string, rules: seq<Rule>): string {
    if text == "" then "" else EncodeChar(text[0], rules) + Encode(text[1..], rules)
  }

  // ---------------------------------------------------------------- what the order of the rules must give

  ghost predicate EntityShape(entity: string) {
    entity != "" && entity[0] == '&' && '&' !in entity[1..]
  }

  /** Entities start with their only ampersand, none starts another, and no entity contains a character that
      an earlier replacement writes. */
  ghost predicate WellOrdered(rules: seq<Rule>) {
    && (forall i :: 0 <= i < |rules| ==> EntityShape(rules[i].entity))
    && (forall i, j :: 0 <= i < j < |rules| ==>
          !(rules[i].entity <= rules[j].entity) && !(rules[j].entity <= rules[i].entity))
    && (forall i, j :: 0 <= i < j < |rules| ==> rules[i].plain !in rules[j].entity)
  }

  lemma {:induction false} MatchingInPrefix(text: string, rules: seq<Rule>, last: Rule)
    ensures Matching(text, rules + [last]) ==
            if Matching(text, rules).Some? then Matching(text, rules)
            else if last.entity <= text then Some(last) else None
    decreases |rules|
  {
    if rules != [] {
      assert (rules + [last])[1..] == rules[1..] + [last];
      MatchingInPrefix(text, rules[1..], last);
    }
  }

  lemma NoMatchWithoutAmpersand(text: string, rules: seq<Rule>)
    requires forall i :: 0 <= i < |rules| ==> EntityShape(rules[i].entity)
    requires text != "" && text[0] != '&'
    ensures Matching(text, rules).None?
  {
    assert forall i :: 0 <= i < |rules| ==> rules[i].entity[0] != text[0];
  }

  lemma CopyOne(c: char, rest: string, rules: seq<Rule>)
    requires forall i :: 0 <= i < |rules| ==> EntityShape(rules[i].entity)
    requires c != '&' || Matching([c] + rest, rules).None?
    ensures Decode([c] + rest, rules) == [c] + Decode(rest, rules)
  {
    var text := [c] + rest;
    if c != '&' {
      NoMatchWithoutAmpersand(text, rules);
    }
    assert text[0] == c && text[1..] == rest;
  }

  /** Text without ampersands is copied by the scan. */
  lemma {:induction false} DecodeCopies(plain: string, rest: string, rules: seq<Rule>)
    requires forall i :: 0 <= i < |rules| ==> EntityShape(rules[i].entity)
    requires '&' !in plain
    ensures Decode(plain + rest, rules) == plain + Decode(rest, rules)
    decreases |plain|
  {
    if plain == "" {
      assert plain + rest == rest;
    } else {
      var c, more := plain[0], plain[1..];
      DecodeCopies(more, rest, rules);
      CopyOne(c, more + rest, rules);
      Prepended(plain, rest, Decode(rest, rules));
    }
  }

  lemma Prepended(text: string, rest: string, more: string)
    requires text != ""
    ensures text + rest == [text[0]] + (text[1..] + rest)
    ensures text + more == [text[0]] + (text[1..] + more)
  {
  }

  /** The scan never writes the rest of an entity that was not there before. */
  lemma {:induction false} DecodeCreatesNothing(part: string, text: string, rules: seq<Rule>)
    requires forall i :: 0 <= i < |rules| ==> rules[i].plain !in part
    requires part <= Decode(text, rules)
    ensures part <= text
    decreases |part|
  {
    if part != "" {
      var r := Matching(text, rules);
      assert Decode(text, rules)[0] == part[0];
      assert r.Some? ==> r.value.plain !in part;
      assert Decode(text, rules) == [text[0]] + Decode(text[1..], rules);
      assert part[1..] <= Decode(text[1..], rules) by {
        assert Decode(text[1..], rules) == Decode(text, rules)[1..];
      }
      DecodeCreatesNothing(part[1..], text[1..], rules);
      assert text == [text[0]] + text[1..] && part == [part[0]] + part[1..];
    }
  }

  /** The pass of one more rule over the scan of the earlier ones is the scan of them all. */
  lemma {:induction false} OneMorePass(text: string, rules: seq<Rule>, last: Rule)
    requires WellOrdered(rules + [last])
    ensures ReplaceAll(Decode(text, rules), last) == Decode(text, rules + [last])
    decreases |text|
  {
    var all, r := rules + [last], Matching(text, rules);
    assert forall i :: 0 <= i < |rules| ==> all[i] == rules[i];
    assert all[|rules|] == last;
    if text != "" {
      MatchingInPrefix(text, rules, last);
      if r.Some? {
        PassSkipsDecoded(text, rules, last);
        OneMorePass(text[|r.value.entity|..], rules, last);
      } else if last.entity <= text {
        PassReplacesEntity(text, rules, last);
        OneMorePass(text[|last.entity|..], rules, last);
      } else {
        PassCopiesChar(text, rules, last);
        OneMorePass(text[1..], rules, last);
      }
    }
  }

  lemma PassSkipsDecoded(text: string, rules: seq<Rule>, last: Rule)
    requires WellOrdered(rules + [last]) && Matching(text, rules).Some? && text != ""
    ensures var r := Matching(text, rules).value;
            && r.entity != ""
            && ReplaceAll(Decode(text, rules), last)
               == [r.plain] + ReplaceAll(Decode(text[|r.entity|..], rules), last)
  {
    var all, r := rules + [last], Matching(text, rules).value;
    var i :| 0 <= i < |rules| && rules[i] == r;
    assert all[i] == r && all[|rules|] == last;
    var scanned := Decode(text, rules);
    assert scanned == [r.plain] + Decode(text[|r.entity|..], rules);
    assert last.entity[0] in last.entity;
    assert !(last.entity <= scanned);
    assert scanned[1..] == Decode(text[|r.entity|..], rules);
  }

  lemma ShapesOf(rules: seq<Rule>, last: Rule)
    requires WellOrdered(rules + [last])
    ensures EntityShape(last.entity) && forall i :: 0 <= i < |rules| ==> EntityShape(rules[i].entity)
  {
    var all := rules + [last];
    assert all[|rules|] == last && forall i :: 0 <= i < |rules| ==> all[i] == rules[i];
  }

  /** Where a new entity stands, the scan of the earlier rules leaves it standing. */
  lemma ScanKeepsEntity(text: string, rules: seq<Rule>, last: Rule)
    requires EntityShape(last.entity) && forall i :: 0 <= i < |rules| ==> EntityShape(rules[i].entity)
    requires Matching(text, rules).None? && last.entity <= text
    ensures Decode(text, rules) == last.entity + Decode(text[|last.entity|..], rules)
  {
    var e, rest := last.entity, text[|last.entity|..];
    assert text == e + rest;
    Prepended(e, rest, Decode(rest, rules));
    CopyOne(e[0], e[1..] + rest, rules);
    DecodeCopies(e[1..], rest, rules);
  }

  lemma PassReplacesEntity(text: string, rules: seq<Rule>, last: Rule)
    requires WellOrdered(rules + [last]) && Matching(text, rules).None? && last.entity <= text
    ensures last.entity != "" && ReplaceAll(Decode(text, rules), last)
            == [last.plain] + ReplaceAll(Decode(text[|last.entity|..], rules), last)
  {
    ShapesOf(rules, last);
    ScanKeepsEntity(text, rules, last);
    var scanned, e := Decode(text, rules), last.entity;
    assert e <= scanned && scanned[|e|..] == Decode(text[|e|..], rules);
  }

  lemma PassCopiesChar(text: string, rules: seq<Rule>, last: Rule)
    requires WellOrdered(rules + [last]) && Matching(text, rules).None? && !(last.entity <= text) && text != ""
    ensures ReplaceAll(Decode(text, rules), last) == [text[0]] + ReplaceAll(Decode(text[1..], rules), last)
  {
    var all := rules + [last];
    assert forall i :: 0 <= i < |rules| ==> all[i] == rules[i];
    assert all[|rules|] == last;
    var scanned := Decode(text, rules);
    assert scanned == [text[0]] + Decode(text[1..], rules) && scanned[1..] == Decode(text[1..], rules);
    if last.entity <= scanned {
      DecodeCreatesNothing(last.entity, text, rules);
    }
  }

  /** Well-ordered sequential replacement is one simultaneous decoding scan, on every text. */
  lemma {:induction false} PassesAreOneScan(text: string, rules: seq<Rule>)
    requires WellOrdered(rules)
    ensures Passes(text, rules) == Decode(text, rules)
    decreases |rules|
  {
    if rules == [] {
      DecodeWithoutRules(text);
    } else {
      var n := |rules| - 1;
      assert rules == rules[..n] + [rules[n]];
      PassesAreOneScan(text, rules[..n]);
      OneMorePass(text, rules[..n], rules[n]);
    }
  }

  lemma {:induction false} DecodeWithoutRules(text: string)
    ensures Decode(text, []) == text
    decreases |text|
  {
    if text != "" {
      DecodeWithoutRules(text[1..]);
    }
  }

  lemma EntitiesHaveShape(i: nat)
    requires i < |RULES|
    ensures EntityShape(RULES[i].entity)
  {
    var e := RULES[i].entity;
    assert 4 <= |e| <= 6 && e[0] == '&';
    forall k | 1 <= k < |e| ensures e[k] != '&' {
    }
  }

  lemma EntitiesDiffer(i: nat, j: nat)
    requires i < j < |RULES|
    ensures !(RULES[i].entity <= RULES[j].entity) && !(RULES[j].entity <= RULES[i].entity)
  {
    var a, b := RULES[i].entity, RULES[j].entity;
    var hexadecimal := {1, 4, 5};
    if i in hexadecimal && j in hexadecimal {
      assert a[3] != b[3] || a[4] != b[4];
    } else if i in hexadecimal + {6} && j in hexadecimal + {6} {
      assert a[2] != b[2];
    } else {
      assert a[1] != b[1];
    }
  }

  lemma EntitiesStayIntact(i: nat, j: nat)
    requires i < j < |RULES|
    ensures RULES[i].plain !in RULES[j].entity
  {
  }

  lemma RulesAreWellOrdered()
    ensures WellOrdered(RULES)
  {
    forall i: nat | i < |RULES| ensures EntityShape(RULES[i].entity) {
      EntitiesHaveShape(i);
    }
    forall i: nat, j: nat | i < j < |RULES|
      ensures !(RULES[i].entity <= RULES[j].entity) && !(RULES[j].entity <= RULES[i].entity)
      ensures RULES[i].plain !in RULES[j].entity
    {
      EntitiesDiffer(i, j);
      EntitiesStayIntact(i, j);
    }
  }

  /** The eight replacements of `unescape` decode every text as one scan does. */
  lemma UnescapeDecodes(text: string)
    ensures Unescape(Some(text)) == Some(Decode(text, RULES)) && Unescape(None) == None
  {
    RulesAreWellOrdered();
    PassesAreOneScan(text, RULES);
  }

  /** The order matters: with `&amp;` first, text that was escaped twice is decoded twice. */
  lemma AmpersandMustComeLast()
    ensures var ampFirst := [Rule("&amp;", '&'), Rule("&lt;", '<')];
            Passes("&amp;lt;", ampFirst) == "<" && Decode("&amp;lt;", ampFirst) == "&lt;"
  {
    var amp, lt := Rule("&amp;", '&'), Rule("&lt;", '<');
    var text, rest := "&amp;lt;", "lt;";
    assert text[5..] == rest && rest[1..] == "t;" && "t;"[1..] == ";" && ";"[1..] == "";
    assert ReplaceAll(rest, amp) == rest && ReplaceAll(text, amp) == "&lt;";
    assert "&lt;"[4..] == "" && ReplaceAll("&lt;", lt) == "<";
    assert [amp, lt][..1] == [amp] && [amp][..0] == [];
    assert Passes(text, [amp]) == "&lt;";
    DecodeCopies(rest, "", [amp, lt]);
    assert rest + "" == rest;
  }

  // ---------------------------------------------------------------- round trip

  lemma DecodeEntity(rule: Rule, rest: string, rules: seq<Rule>)
    requires WellOrdered(rules) && rule in rules
    ensures Decode(rule.entity + rest, rules) == [rule.plain] + Decode(rest, rules)
  {
  }

  /** Decoding undoes escaping whenever the ampersand is among the escaped characters. */
  lemma {:induction false} DecodeUndoesEncode(text: string, rules: seq<Rule>)
    requires WellOrdered(rules) && exists r :: r in rules && r.plain == '&'
    ensures Decode(Encode(text, rules), rules) == text
    decreases |text|
  {
    if text != "" {
      var c, rest := text[0], Encode(text[1..], rules);
      var e := EncodeChar(c, rules);
      DecodeUndoesEncode(text[1..], rules);
      if Rule(e, c) in rules {
        DecodeEntity(Rule(e, c), rest, rules);
      } else {
        DecodeCopies([c], rest, rules);
      }
    }
  }

  /** `unescape` gives back every text whose eight special characters were escaped one by one. */
  lemma UnescapeUndoesEscape(text: string)
    ensures Unescape(Some(Encode(text, RULES))) == Some(text)
  {
    RulesAreWellOrdered();
    assert RULES[7].plain == '&';
    UnescapeDecodes(Encode(text, RULES));
    DecodeUndoesEncode(text, RULES);
  }

  const SPECIAL := "\"'<>/\\`&"
  const ESCAPES := ["&quot;", "&#x27;", "&lt;", "&gt;", "&#x2F;", "&#x5C;", "&#96;", "&amp;"]

  lemma RuleIs(n: nat)
    requires n < 8
    ensures RULES[n].plain == SPECIAL[n]
  {
  }

  lemma RuleEntityIs(n: nat)
    requires n < 8
    ensures RULES[n].entity == ESCAPES[n]
  {
  }

  lemma SpecialsDiffer(i: nat, j: nat)
    requires i < j < 8
    ensures SPECIAL[i] != SPECIAL[j]
  {
  }

  /** Each of the eight characters is escaped as its own entity. */
  lemma EscapesOf(n: nat)
    requires n < 8
    ensures EncodeChar(SPECIAL[n], RULES) == ESCAPES[n]
  {
    forall i: nat | i < n ensures RULES[i].plain != SPECIAL[n] {
      RuleIs(i);
      SpecialsDiffer(i, n);
    }
    EncodeSkips(SPECIAL[n], RULES, n);
    assert RULES[n..][0] == RULES[n];
    RuleIs(n);
    RuleEntityIs(n);
  }

  /** Every other character stands for itself. */
  lemma OthersStay(c: char)
    requires c !in SPECIAL
    ensures EncodeChar(c, RULES) == [c]
  {
    forall i: nat | i < 8 ensures RULES[i].plain != c {
      RuleIs(i);
      assert SPECIAL[i] in SPECIAL;
    }
    EncodeSkips(c, RULES, 8);
    assert RULES[8..] == [];
  }

  /** Rules for other characters are passed over. */
  lemma {:induction false} EncodeSkips(c: char, rules: seq<Rule>, n: nat)
    requires n <= |rules| && forall i :: 0 <= i < n ==> rules[i].plain != c
    ensures EncodeChar(c, rules) == EncodeChar(c, rules[n..])
    decreases n
  {
    if n == 0 {
      assert rules[0..] == rules;
    } else {
      assert forall i :: 0 <= i < n - 1 ==> rules[1..][i] == rules[i + 1];
      EncodeSkips(c, rules[1..], n - 1);
      assert rules[1..][n - 1..] == rules[n..];
    }
  }
}

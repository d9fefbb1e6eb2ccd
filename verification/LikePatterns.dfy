/**
 Prefix cleanup: the pattern that `_escape_like_pattern` builds, read with the meaning that
 section 8.5 of ISO/IEC 9075-2 gives to LIKE with ESCAPE '!', matches exactly the names that
 start with the prefix.
 */
module LikePatterns {
  import opened Wrappers

  /** str.replace for a one-character needle. */
  function Replace(text: string, c: char, put: string): string {
    if text == "" then "" else (if text[0] == c then put else [text[0]]) + Replace(text[1..], c, put)
  }

  /** Three replacements, one after the other. */
  function EscapeLike(text: string): string {
    Replace(Replace(Replace(text, '!', "!!"), '%', "!%"), '_', "!_")
  }

  // ---------- the meaning of a pattern ----------

  datatype Item = Literal(c: char) | AnyOne | AnyMany

  /** The escape character must be followed by a wildcard or by itself; otherwise the query is an error. */
  function Parse(pattern: string): Option<seq<Item>> {
    if pattern == "" then Some([])
    else if pattern[0] == '!' then
      if |pattern| >= 2 && pattern[1] in {'!', '%', '_'} then Prepend(Literal(pattern[1]), Parse(pattern[2..])) else None
    else Prepend(if pattern[0] == '%' then AnyMany else if pattern[0] == '_' then AnyOne else Literal(pattern[0]), Parse(pattern[1..]))
  }

  function Prepend(item: Item, rest: Option<seq<Item>>): Option<seq<Item>> {
    if rest.None? then None else Some([item] + rest.value)
  }

  predicate Matches(items: seq<Item>, text: string)
    decreases |items|, |text|
  {
    if items == [] then text == ""
    else match items[0]
      case Literal(c) => text != "" && text[0] == c && Matches(items[1..], text[1..])
      case AnyOne => text != "" && Matches(items[1..], text[1..])
      case AnyMany => Matches(items[1..], text) || (text != "" && Matches(items, text[1..]))
  }

  predicate Like(text: string, pattern: string) {
    Parse(pattern).Some? && Matches(Parse(pattern).value, text)
  }

  // ---------- the escape is exact ----------

  function EscapeChar(c: char): string {
    if c == '!' || c == '%' || c == '_' then ['!', c] else [c]
  }

  lemma {:induction false} ReplaceConcat(a: string, b: string, c: char, put: string)
    ensures Replace(a + b, c, put) == Replace(a, c, put) + Replace(b, c, put)
  {
    if a == "" {
      assert a + b == b;
    } else {
      assert (a + b)[1..] == a[1..] + b;
      ReplaceConcat(a[1..], b, c, put);
    }
  }

  lemma ReplaceShort(text: string, c: char, put: string)
    requires |text| <= 2
    ensures Replace(text, c, put) ==
      if text == "" then "" else if |text| == 1 then (if text[0] == c then put else [text[0]])
      else (if text[0] == c then put else [text[0]]) + (if text[1] == c then put else [text[1]])
  {
    if |text| == 2 {
      assert text[1..] == [text[1]] && text[1..][1..] == "";
    }
  }

  lemma EscapeConcat(a: string, b: string)
    ensures EscapeLike(a + b) == EscapeLike(a) + EscapeLike(b)
  {
    ReplaceConcat(a, b, '!', "!!");
    ReplaceConcat(Replace(a, '!', "!!"), Replace(b, '!', "!!"), '%', "!%");
    ReplaceConcat(Replace(Replace(a, '!', "!!"), '%', "!%"), Replace(Replace(b, '!', "!!"), '%', "!%"), '_', "!_");
  }

  lemma EscapeOne(c: char)
    ensures EscapeLike([c]) == EscapeChar(c)
  {
    var one := Replace([c], '!', "!!");
    ReplaceShort([c], '!', "!!");
    ReplaceShort(one, '%', "!%");
    ReplaceShort(Replace(one, '%', "!%"), '_', "!_");
  }

  function Escaped(text: string): string {
    if text == "" then "" else EscapeChar(text[0]) + Escaped(text[1..])
  }

  /** The replacements do not disturb each other: together they escape character by character. */
  lemma {:induction false} EscapeIsPerCharacter(text: string)
    ensures EscapeLike(text) == Escaped(text)
  {
    if text != "" {
      assert text == [text[0]] + text[1..];
      EscapeConcat([text[0]], text[1..]);
      EscapeOne(text[0]);
      EscapeIsPerCharacter(text[1..]);
    }
  }

  function Literals(text: string): seq<Item> {
    if text == "" then [] else [Literal(text[0])] + Literals(text[1..])
  }

  lemma EscapedCharParses(c: char, more: string, items: seq<Item>)
    requires Parse(more) == Some(items)
    ensures Parse(EscapeChar(c) + more) == Some([Literal(c)] + items)
  {
    var e := EscapeChar(c);
    assert (e + more)[|e|..] == more;
    assert (e + more)[0] == e[0];
  }

  /** Read back, the escaped text stands for its own characters. */
  lemma {:induction false} EscapedParses(text: string, rest: string, items: seq<Item>)
    requires Parse(rest) == Some(items)
    ensures Parse(Escaped(text) + rest) == Some(Literals(text) + items)
  {
    if text == "" {
      assert Escaped(text) + rest == rest && Literals(text) + items == items;
    } else {
      EscapedParses(text[1..], rest, items);
      EscapedCharParses(text[0], Escaped(text[1..]) + rest, Literals(text[1..]) + items);
      Regroup(EscapeChar(text[0]), Escaped(text[1..]), rest);
      Regroup([Literal(text[0])], Literals(text[1..]), items);
    }
  }

  lemma {:induction false} AnythingMatches(text: string)
    ensures Matches([AnyMany], text)
  {
    if text != "" {
      AnythingMatches(text[1..]);
    }
  }

  lemma {:induction false} PrefixMatches(prefix: string, text: string)
    ensures Matches(Literals(prefix) + [AnyMany], text) <==> prefix <= text
  {
    var items := Literals(prefix) + [AnyMany];
    if prefix == "" {
      assert items == [AnyMany];
      AnythingMatches(text);
    } else {
      assert items[1..] == Literals(prefix[1..]) + [AnyMany];
      if text != "" {
        PrefixMatches(prefix[1..], text[1..]);
        assert prefix <= text <==> prefix[0] == text[0] && prefix[1..] <= text[1..];
      }
    }
  }

  lemma PercentParses()
    ensures Parse("%") == Some([AnyMany])
  {
    assert "%"[1..] == "" && [AnyMany] + [] == [AnyMany];
  }

  /** `task_name LIKE escape(prefix) || '%' ESCAPE '!'` selects exactly the names with that prefix. */
  lemma PrefixPatternIsExact(prefix: string, name: string)
    ensures Like(name, EscapeLike(prefix) + "%") <==> prefix <= name
  {
    PercentParses();
    EscapeIsPerCharacter(prefix);
    EscapedParses(prefix, "%", [AnyMany]);
    PrefixMatches(prefix, name);
  }

  /** Without the escape the pattern can select foreign names. */
  lemma UnescapedPatternLeaks()
    ensures Like("x", "_" + "%") && !("_" <= "x") && !Like("x", EscapeLike("_") + "%")
  {
    PercentParses();
    assert ("_" + "%")[1..] == "%" && [AnyOne] + [AnyMany] == [AnyOne, AnyMany];
    AnythingMatches("");
    assert [AnyOne, AnyMany][1..] == [AnyMany] && "x"[1..] == "";
    PrefixPatternIsExact("_", "x");
  }
}

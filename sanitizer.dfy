/**
 * The builder's `clear` routine: the text that goes into every attribute of
 * the rendered head.  It runs four stages, in this order:
 *   1. each match of `<[^>]+>`, found scanning left to right, becomes one space;
 *   2. each run of whitespace (`[\r\n\s]+`) becomes one space;
 *   3. each `"` becomes `&quot;`;
 *   4. PHP `trim` strips " \t\n\r\0\x0B" from both ends.
 * Strings are byte strings in PHP; here each byte is a `char`.
 */
module Sanitizer {

  /** The bytes that `\s` matches in a non-UTF PCRE pattern (\r and \n among them). */
  predicate IsSpace(c: char) {
    c == ' ' || c == '\t' || c == '\n' || c == '\U{0B}' || c == '\U{0C}' || c == '\r'
  }

  /** The bytes PHP's `trim` removes when given no character list. */
  predicate TrimChar(c: char) {
    c == ' ' || c == '\t' || c == '\n' || c == '\r' || c == '\0' || c == '\U{0B}'
  }

  // ---------------------------------------------------------------------------
  // Stage 1: tags

  /**
   * `<[^>]+>` matches at the start of `s`: a `<`, then at least one byte that is
   * not `>`, then a `>` somewhere later.  The greedy class stops at the first `>`.
   */
  predicate TagAt(s: string) {
    |s| >= 2 && s[0] == '<' && s[1] != '>' && '>' in s[2..]
  }

  /** Index of the first `>` in `s`. */
  function FirstClose(s: string): (j: nat)
    requires '>' in s
    ensures j < |s| && s[j] == '>'
    ensures forall k :: 0 <= k < j ==> s[k] != '>'
  {
    if s[0] == '>' then 0 else 1 + FirstClose(s[1..])
  }

  /** Stage 1: `preg_replace('/<[^>]+>/', ' ', s)`. */
  function StripTags(s: string): string
    decreases |s|
  {
    if |s| == 0 then ""
    else if TagAt(s) then " " + StripTags(s[FirstClose(s) + 1..])
    else [s[0]] + StripTags(s[1..])
  }

  // ---------------------------------------------------------------------------
  // Stage 2: whitespace

  /** `s` without its leading whitespace. */
  function DropSpaces(s: string): (r: string)
    ensures |r| <= |s|
    ensures r == [] || !IsSpace(r[0])
  {
    if |s| > 0 && IsSpace(s[0]) then DropSpaces(s[1..]) else s
  }

  /** `DropSpaces` only removes bytes from the front. */
  lemma {:induction false} DropSpacesSuffix(s: string)
    ensures DropSpaces(s) == s[|s| - |DropSpaces(s)|..]
  {
    if |s| > 0 && IsSpace(s[0]) {
      DropSpacesSuffix(s[1..]);
    }
  }

  /** Stage 2: `preg_replace('/[\r\n\s]+/', ' ', s)`. */
  function CollapseSpaces(s: string): string
    decreases |s|
  {
    if |s| == 0 then ""
    else if IsSpace(s[0]) then " " + CollapseSpaces(DropSpaces(s[1..]))
    else [s[0]] + CollapseSpaces(s[1..])
  }

  // ---------------------------------------------------------------------------
  // Stage 3: quotes

  /** Stage 3: `str_replace('"', '&quot;', s)`. */
  function EscapeQuotes(s: string): string {
    if |s| == 0 then ""
    else (if s[0] == '"' then "&quot;" else [s[0]]) + EscapeQuotes(s[1..])
  }

  // ---------------------------------------------------------------------------
  // Stage 4: trim

  function TrimStart(s: string): (r: string)
    ensures |r| <= |s|
    ensures r == [] || !TrimChar(r[0])
  {
    if |s| > 0 && TrimChar(s[0]) then TrimStart(s[1..]) else s
  }

  /** `TrimStart` only removes bytes from the front. */
  lemma {:induction false} TrimStartSuffix(s: string)
    ensures TrimStart(s) == s[|s| - |TrimStart(s)|..]
  {
    if |s| > 0 && TrimChar(s[0]) {
      TrimStartSuffix(s[1..]);
    }
  }

  function TrimEnd(s: string): (r: string)
    ensures |r| <= |s|
    ensures r == [] || !TrimChar(r[|r| - 1])
  {
    if |s| > 0 && TrimChar(s[|s| - 1]) then TrimEnd(s[..|s| - 1]) else s
  }

  /** `TrimEnd` only removes bytes from the back. */
  lemma {:induction false} TrimEndPrefix(s: string)
    ensures TrimEnd(s) == s[..|TrimEnd(s)|]
  {
    if |s| > 0 && TrimChar(s[|s| - 1]) {
      TrimEndPrefix(s[..|s| - 1]);
    }
  }

  /** Stage 4: PHP `trim(s)`. */
  function Trim(s: string): string {
    TrimEnd(TrimStart(s))
  }

  /** The builder's `clear`. */
  function Clear(s: string): string {
    Trim(EscapeQuotes(CollapseSpaces(StripTags(s))))
  }

  // ---------------------------------------------------------------------------
  // What `clear` produces

  /** No position of `s` starts a match of `<[^>]+>`. */
  predicate TagFree(s: string) {
    |s| == 0 || (!TagAt(s) && TagFree(s[1..]))
  }

  /** The only whitespace is a plain space, and never two in a row. */
  predicate SingleSpaced(s: string) {
    forall i :: 0 <= i < |s| && IsSpace(s[i]) ==> s[i] == ' ' && (i + 1 == |s| || !IsSpace(s[i + 1]))
  }

  /** Neither end is a byte that `trim` removes. */
  predicate Trimmed(s: string) {
    s == [] || (!TrimChar(s[0]) && !TrimChar(s[|s| - 1]))
  }

  /** The strings `clear` can return, and exactly the ones it leaves alone. */
  predicate Clean(s: string) {
    TagFree(s) && SingleSpaced(s) && '"' !in s && Trimmed(s)
  }

  // ---------------------------------------------------------------------------
  // Tag freedom: helper facts

  lemma TagFreeCons(c: char, t: string)
    requires TagFree(t)
    requires c != '<' || t == [] || t[0] == '>' || '>' !in t
    ensures TagFree([c] + t)
  {
    var s := [c] + t;
    assert s[1..] == t;
    if |s| >= 2 {
      assert s[2..] == t[1..];
    }
  }

  /** Prepending text without `<` keeps a string tag free. */
  lemma {:induction false} TagFreePrepend(p: string, t: string)
    requires '<' !in p && TagFree(t)
    ensures TagFree(p + t)
  {
    if p != [] {
      TagFreePrepend(p[1..], t);
      assert p + t == [p[0]] + (p[1..] + t);
      TagFreeCons(p[0], p[1..] + t);
    } else {
      assert p + t == t;
    }
  }

  lemma {:induction false} TagFreeSuffix(s: string, k: nat)
    requires TagFree(s) && k <= |s|
    ensures TagFree(s[k..])
  {
    if k > 0 {
      TagFreeSuffix(s[1..], k - 1);
      assert s[1..][k - 1..] == s[k..];
    }
  }

  lemma {:induction false} TagFreePrefix(s: string, k: nat)
    requires TagFree(s) && k <= |s|
    ensures TagFree(s[..k])
  {
    if k > 0 {
      TagFreePrefix(s[1..], k - 1);
      assert s[..k][1..] == s[1..][..k - 1];
    }
  }

  lemma TagFreeSlice(s: string, a: nat, b: nat)
    requires TagFree(s) && a <= b <= |s|
    ensures TagFree(s[a..b])
  {
    TagFreeSuffix(s, a);
    TagFreePrefix(s[a..], b - a);
    assert s[a..][..b - a] == s[a..b];
  }

  // ---------------------------------------------------------------------------
  // Stage 1 facts

  /** Stage 1 only introduces spaces: every other byte of its output was in its input. */
  lemma {:induction false} StripTagsKeeps(s: string, c: char)
    requires c != ' ' && c in StripTags(s)
    ensures c in s
    decreases |s|
  {
    if TagAt(s) {
      var rest := s[FirstClose(s) + 1..];
      assert c in StripTags(rest);
      StripTagsKeeps(rest, c);
    } else {
      if c != s[0] {
        assert c in StripTags(s[1..]);
        StripTagsKeeps(s[1..], c);
      }
    }
  }

  lemma StripTagsHead(s: string)
    requires s != [] && s[0] != '<'
    ensures StripTags(s) != [] && StripTags(s)[0] == s[0]
  {
  }

  /** Stage 1 leaves no match behind. */
  lemma {:induction false} StripTagsTagFree(s: string)
    ensures TagFree(StripTags(s))
    decreases |s|
  {
    if |s| == 0 {
    } else if TagAt(s) {
      var rest := s[FirstClose(s) + 1..];
      StripTagsTagFree(rest);
      TagFreeCons(' ', StripTags(rest));
    } else {
      var t := s[1..];
      StripTagsTagFree(t);
      if s[0] == '<' && t != [] && t[0] != '>' {
        if '>' in StripTags(t) {
          StripTagsKeeps(t, '>');
        }
      } else if t != [] && t[0] != '<' {
        StripTagsHead(t);
      } else if t == [] {
        assert StripTags(t) == [];
      }
      TagFreeCons(s[0], StripTags(t));
    }
  }

  /** A tag-free string is left alone by stage 1. */
  lemma {:induction false} StripTagsFixed(s: string)
    requires TagFree(s)
    ensures StripTags(s) == s
  {
    if s != [] {
      StripTagsFixed(s[1..]);
    }
  }

  // ---------------------------------------------------------------------------
  // Stage 2 facts

  lemma SingleSpacedCons(c: char, t: string)
    requires SingleSpaced(t)
    requires IsSpace(c) ==> c == ' ' && (t == [] || !IsSpace(t[0]))
    ensures SingleSpaced([c] + t)
  {
    var s := [c] + t;
    forall i | 0 <= i < |s| && IsSpace(s[i])
      ensures s[i] == ' ' && (i + 1 == |s| || !IsSpace(s[i + 1]))
    {
      if i > 0 {
        assert s[i] == t[i - 1];
        if i + 1 < |s| { assert s[i + 1] == t[i]; }
      }
    }
  }

  lemma SingleSpacedSlice(s: string, a: nat, b: nat)
    requires SingleSpaced(s) && a <= b <= |s|
    ensures SingleSpaced(s[a..b])
  {
    var t := s[a..b];
    forall i | 0 <= i < |t| && IsSpace(t[i])
      ensures t[i] == ' ' && (i + 1 == |t| || !IsSpace(t[i + 1]))
    {
      assert t[i] == s[a + i];
      if i + 1 < |t| { assert t[i + 1] == s[a + i + 1]; }
    }
  }

  /** Stage 2 only introduces spaces. */
  lemma {:induction false} CollapseSpacesKeeps(s: string, c: char)
    requires !IsSpace(c) && c in CollapseSpaces(s)
    ensures c in s
    decreases |s|
  {
    if IsSpace(s[0]) {
      var d := DropSpaces(s[1..]);
      DropSpacesSuffix(s[1..]);
      assert c in CollapseSpaces(d);
      CollapseSpacesKeeps(d, c);
      assert s[1..][|s[1..]| - |d|..] == d;
      var k :| 0 <= k < |d| && d[k] == c;
      assert s[1 + |s[1..]| - |d| + k] == c;
    } else if c != s[0] {
      assert c in CollapseSpaces(s[1..]);
      CollapseSpacesKeeps(s[1..], c);
    }
  }

  lemma CollapseSpacesHead(s: string)
    requires s != []
    ensures CollapseSpaces(s) != []
    ensures CollapseSpaces(s)[0] == if IsSpace(s[0]) then ' ' else s[0]
  {
  }

  /** Stage 2 output has single spaces only. */
  lemma {:induction false} CollapseSpacesSingle(s: string)
    ensures SingleSpaced(CollapseSpaces(s))
    decreases |s|
  {
    if |s| == 0 {
    } else if IsSpace(s[0]) {
      var d := DropSpaces(s[1..]);
      CollapseSpacesSingle(d);
      if d != [] { CollapseSpacesHead(d); }
      SingleSpacedCons(' ', CollapseSpaces(d));
    } else {
      CollapseSpacesSingle(s[1..]);
      SingleSpacedCons(s[0], CollapseSpaces(s[1..]));
    }
  }

  /** Stage 2 keeps a string tag free. */
  lemma {:induction false} CollapseSpacesTagFree(s: string)
    requires TagFree(s)
    ensures TagFree(CollapseSpaces(s))
    decreases |s|
  {
    if |s| == 0 {
    } else if IsSpace(s[0]) {
      var d := DropSpaces(s[1..]);
      DropSpacesSuffix(s[1..]);
      TagFreeSuffix(s, |s| - |d|);
      assert s[|s| - |d|..] == d;
      CollapseSpacesTagFree(d);
      TagFreeCons(' ', CollapseSpaces(d));
    } else {
      var t := s[1..];
      CollapseSpacesTagFree(t);
      if t != [] { CollapseSpacesHead(t); }
      if s[0] == '<' && t != [] && t[0] != '>' {
        if '>' in CollapseSpaces(t) {
          CollapseSpacesKeeps(t, '>');
        }
      }
      TagFreeCons(s[0], CollapseSpaces(t));
    }
  }

  /** A single-spaced string is left alone by stage 2. */
  lemma {:induction false} CollapseSpacesFixed(s: string)
    requires SingleSpaced(s)
    ensures CollapseSpaces(s) == s
  {
    if s != [] {
      SingleSpacedSlice(s, 1, |s|);
      assert s[1..|s|] == s[1..];
      CollapseSpacesFixed(s[1..]);
      if IsSpace(s[0]) {
        assert s[1..] == [] || !IsSpace(s[1..][0]);
        assert DropSpaces(s[1..]) == s[1..];
      }
    }
  }

  // ---------------------------------------------------------------------------
  // Stage 3 facts

  /** Stage 3 leaves no raw quote. */
  lemma {:induction false} EscapeQuotesNoQuote(s: string)
    ensures '"' !in EscapeQuotes(s)
  {
    if s != [] {
      EscapeQuotesNoQuote(s[1..]);
      assert '"' !in (if s[0] == '"' then "&quot;" else [s[0]]);
    }
  }

  /** Stage 3 adds only the bytes of `&quot;`. */
  lemma {:induction false} EscapeQuotesKeeps(s: string, c: char)
    requires c !in "&quot;" && c in EscapeQuotes(s)
    ensures c in s
  {
    if c != s[0] {
      var head := if s[0] == '"' then "&quot;" else [s[0]];
      assert c !in head;
      assert c in EscapeQuotes(s[1..]);
      EscapeQuotesKeeps(s[1..], c);
    }
  }

  lemma EscapeQuotesHead(s: string)
    requires s != []
    ensures EscapeQuotes(s) != []
    ensures EscapeQuotes(s)[0] == if s[0] == '"' then '&' else s[0]
  {
  }

  /** Text without whitespace in front of a single-spaced string keeps it single spaced. */
  lemma SingleSpacedPrepend(p: string, t: string)
    requires forall i :: 0 <= i < |p| ==> !IsSpace(p[i])
    requires SingleSpaced(t)
    ensures SingleSpaced(p + t)
  {
    var s := p + t;
    forall i | 0 <= i < |s| && IsSpace(s[i])
      ensures s[i] == ' ' && (i + 1 == |s| || !IsSpace(s[i + 1]))
    {
      assert i >= |p|;
      assert s[i] == t[i - |p|];
      if i + 1 < |s| { assert s[i + 1] == t[i + 1 - |p|]; }
    }
  }

  /** Stage 3 keeps a string single spaced. */
  lemma {:induction false} EscapeQuotesSingle(s: string)
    requires SingleSpaced(s)
    ensures SingleSpaced(EscapeQuotes(s))
  {
    if s != [] {
      var t := s[1..];
      SingleSpacedSlice(s, 1, |s|);
      assert s[1..|s|] == t;
      EscapeQuotesSingle(t);
      var e := EscapeQuotes(t);
      if s[0] == '"' {
        SingleSpacedPrepend("&quot;", e);
      } else {
        if t != [] { EscapeQuotesHead(t); }
        SingleSpacedCons(s[0], e);
      }
    }
  }

  /** Stage 3 keeps a string tag free. */
  lemma {:induction false} EscapeQuotesTagFree(s: string)
    requires TagFree(s)
    ensures TagFree(EscapeQuotes(s))
  {
    if s != [] {
      var t := s[1..];
      EscapeQuotesTagFree(t);
      var e := EscapeQuotes(t);
      if s[0] == '"' {
        TagFreePrepend("&quot;", e);
      } else {
        if t != [] { EscapeQuotesHead(t); }
        if s[0] == '<' && t != [] && t[0] != '>' {
          if '>' in e {
            EscapeQuotesKeeps(t, '>');
          }
        }
        TagFreeCons(s[0], e);
      }
    }
  }

  /** A string without quotes is left alone by stage 3. */
  lemma {:induction false} EscapeQuotesFixed(s: string)
    requires '"' !in s
    ensures EscapeQuotes(s) == s
  {
    if s != [] {
      assert '"' !in s[1..];
      EscapeQuotesFixed(s[1..]);
    }
  }

  // ---------------------------------------------------------------------------
  // Stage 4 facts

  /** `trim` returns a slice of its input with neither end trimmable. */
  lemma TrimSlice(s: string) returns (a: nat, b: nat)
    ensures a <= b <= |s| && Trim(s) == s[a..b]
    ensures Trimmed(Trim(s))
  {
    var l := TrimStart(s);
    var r := TrimEnd(l);
    TrimStartSuffix(s);
    TrimEndPrefix(l);
    a, b := |s| - |l|, |s| - |l| + |r|;
    assert r == s[a..b];
  }

  /** A string with neither end trimmable is left alone by stage 4. */
  lemma TrimFixed(s: string)
    requires Trimmed(s)
    ensures Trim(s) == s
  {
  }

  // ---------------------------------------------------------------------------
  // `clear`

  /**
   * What `clear` returns is clean: no raw quote, no whitespace but single
   * spaces, no trimmable byte at either end, and nothing left that
   * `<[^>]+>` matches.
   */
  lemma ClearIsClean(s: string)
    ensures Clean(Clear(s))
  {
    var t1 := StripTags(s);
    StripTagsTagFree(s);
    var t2 := CollapseSpaces(t1);
    CollapseSpacesTagFree(t1);
    CollapseSpacesSingle(t1);
    var t3 := EscapeQuotes(t2);
    EscapeQuotesTagFree(t2);
    EscapeQuotesSingle(t2);
    EscapeQuotesNoQuote(t2);
    var a, b := TrimSlice(t3);
    TagFreeSlice(t3, a, b);
    SingleSpacedSlice(t3, a, b);
  }

  /** `clear` leaves a clean string alone. */
  lemma ClearFixed(s: string)
    requires Clean(s)
    ensures Clear(s) == s
  {
    StripTagsFixed(s);
    CollapseSpacesFixed(s);
    EscapeQuotesFixed(s);
    TrimFixed(s);
  }

  /** Clean strings are exactly the fixed points of `clear`. */
  lemma CleanIffFixed(s: string)
    ensures Clean(s) <==> Clear(s) == s
  {
    if Clean(s) {
      ClearFixed(s);
    }
    if Clear(s) == s {
      ClearIsClean(s);
    }
  }

  /** Cleaning twice is cleaning once. */
  lemma ClearIdempotent(s: string)
    ensures Clear(Clear(s)) == Clear(s)
  {
    ClearIsClean(s);
    ClearFixed(Clear(s));
  }

  /**
   * What `clear` returns: no quote, no whitespace other than single plain
   * spaces, and no space at either end.
   */
  lemma ClearOutput(s: string)
    ensures '"' !in Clear(s)
    ensures forall i :: 0 <= i < |Clear(s)| && IsSpace(Clear(s)[i]) ==> Clear(s)[i] == ' '
    ensures forall i :: 0 <= i < |Clear(s)| - 1 ==> !(Clear(s)[i] == ' ' && Clear(s)[i + 1] == ' ')
    ensures Clear(s) != [] ==> Clear(s)[0] != ' ' && Clear(s)[|Clear(s)| - 1] != ' '
  {
    ClearIsClean(s);
  }

  /** Without `<`, quotes, runs of whitespace or trimmable ends, a string is clean. */
  lemma PlainIsClean(s: string)
    requires '<' !in s && '"' !in s && SingleSpaced(s) && Trimmed(s)
    ensures Clean(s)
  {
    TagFreePrepend(s, "");
    assert s + "" == s;
  }

  /** Text without `<` or `"`, single spaced and not padded, passes through `clear` unchanged. */
  lemma ClearPlain(s: string)
    requires '<' !in s && '"' !in s && SingleSpaced(s) && Trimmed(s)
    ensures Clear(s) == s
  {
    PlainIsClean(s);
    ClearFixed(s);
  }

  /**
   * `clear` does not remove every `<`: an empty pair `<>` matches no tag and
   * survives, so does a `<` with no `>` after it.
   */
  lemma ClearKeepsEmptyBrackets()
    ensures Clear("<>") == "<>"
  {
    assert TagFree("<>") by {
      assert "<>"[1..] == ">";
      assert ">"[1..] == "";
    }
    assert SingleSpaced("<>");
    ClearFixed("<>");
  }

  lemma ClearKeepsUnclosedBracket()
    ensures Clear("a<b") == "a<b"
  {
    assert TagFree("a<b") by {
      assert "a<b"[1..] == "<b";
      assert "<b"[1..] == "b";
      assert "b"[1..] == "";
    }
    assert SingleSpaced("a<b");
    ClearFixed("a<b");
  }

  lemma ClearOfTagIsEmpty()
    ensures Clear("<b>") == ""
  {
    assert TagAt("<b>") by { assert "<b>"[2..] == ">"; }
    assert FirstClose("<b>") == 2;
    assert "<b>"[3..] == "";
    assert StripTags("<b>") == " ";
    assert DropSpaces(" "[1..]) == "";
    assert CollapseSpaces(" ") == " ";
    assert EscapeQuotes(" ") == " ";
    assert TrimStart(" ") == "";
  }
}

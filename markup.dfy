/**
 * The HTML fragments the builder renders, and the fact that makes them safe to
 * paste into a page head: every `"` in a fragment is one of the template's own,
 * so no stored text can close an attribute early.
 */
module Markup {
  import opened Sanitizer
  import opened PhpArrays

  /** PHP `implode(glue, parts)`. */
  function Implode(glue: string, parts: seq<string>): string {
    if |parts| == 0 then ""
    else if |parts| == 1 then parts[0]
    else parts[0] + glue + Implode(glue, parts[1..])
  }

  /** One `name="value"` pair of an attribute list, both sides cleaned. */
  function AttributePair(name: string, value: string): string {
    Clear(name) + "=\"" + Clear(value) + "\""
  }

  /** The pairs of an attribute list, in the list's order. */
  function AttributePairs(attributes: Entries<string, string>): (pairs: seq<string>)
    ensures |pairs| == |attributes|
    ensures forall i :: 0 <= i < |attributes| ==> pairs[i] == AttributePair(attributes[i].0, attributes[i].1)
  {
    seq(|attributes|, i requires 0 <= i < |attributes| => AttributePair(attributes[i].0, attributes[i].1))
  }

  /** What the builder's `parse` returns: the pairs joined by single spaces. */
  function Attributes(attributes: Entries<string, string>): string {
    Implode(" ", AttributePairs(attributes))
  }

  /** Appending one part to an imploded list adds the glue only when the list was not empty. */
  lemma {:induction false} ImplodeAppend(glue: string, parts: seq<string>, part: string)
    ensures Implode(glue, parts + [part]) == (if parts == [] then "" else Implode(glue, parts) + glue) + part
  {
    if |parts| == 0 {
      assert parts + [part] == [part];
    } else if |parts| == 1 {
      assert (parts + [part])[1..] == [part];
    } else {
      ImplodeAppend(glue, parts[1..], part);
      assert (parts + [part])[1..] == parts[1..] + [part];
    }
  }

  /**
   * The `foreach` of `parse`: each further attribute appends its pair to the
   * list, after a single space unless it is the first.
   */
  lemma AttributesAppend(attributes: Entries<string, string>, name: string, value: string)
    ensures Attributes(attributes + [(name, value)])
         == (if attributes == [] then "" else Attributes(attributes) + " ") + AttributePair(name, value)
  {
    assert AttributePairs(attributes + [(name, value)]) == AttributePairs(attributes) + [AttributePair(name, value)];
    ImplodeAppend(" ", AttributePairs(attributes), AttributePair(name, value));
  }

  /** `<meta KIND="KEY" content="VALUE" />`, the content cleaned when rendered. */
  function MetaTag(kind: string, key: string, value: string): string {
    "<meta " + kind + "=\"" + key + "\" content=\"" + Clear(value) + "\" />"
  }

  /** `<link href="HREF" ATTRIBUTES/>`. */
  function LinkTag(href: string, attributes: Entries<string, string>): string {
    "<link href=\"" + href + "\" " + Attributes(attributes) + "/>"
  }

  /** `<script type="text/javascript" src="SRC"></script>`. */
  function ScriptTag(src: string): string {
    "<script type=\"text/javascript\" src=\"" + src + "\"></script>"
  }

  /** The `<meta>` tags of one group (name, property or http-equiv), in the group's order. */
  function MetaGroup(kind: string, m: Entries<string, string>): (tags: seq<string>)
    ensures |tags| == |m|
  {
    if m == [] then [] else MetaGroup(kind, m[..|m| - 1]) + [MetaTag(kind, m[|m| - 1].0, m[|m| - 1].1)]
  }

  /** The i-th tag of a group renders the group's i-th entry. */
  lemma {:induction false} MetaGroupAt(kind: string, m: Entries<string, string>)
    ensures forall i :: 0 <= i < |m| ==> MetaGroup(kind, m)[i] == MetaTag(kind, m[i].0, m[i].1)
  {
    if m != [] {
      MetaGroupAt(kind, m[..|m| - 1]);
    }
  }

  // ---------------------------------------------------------------------------
  // Counting quotes

  /** The number of `"` bytes in `s`. */
  function Quotes(s: string): nat {
    if |s| == 0 then 0 else (if s[0] == '"' then 1 else 0) + Quotes(s[1..])
  }

  lemma {:induction false} QuotesAppend(a: string, b: string)
    ensures Quotes(a + b) == Quotes(a) + Quotes(b)
  {
    if a == [] {
      assert a + b == b;
    } else {
      QuotesAppend(a[1..], b);
      assert (a + b)[1..] == a[1..] + b;
    }
  }

  lemma {:induction false} QuotesAbsent(s: string)
    ensures '"' !in s <==> Quotes(s) == 0
  {
    if s != [] {
      QuotesAbsent(s[1..]);
      assert s == [s[0]] + s[1..];
    }
  }

  /** Text without quotes, dropped into a slot of a template, adds no quote to it. */
  lemma QuotesSlot(before: string, text: string, after: string)
    requires '"' !in text
    ensures Quotes(before + text + after) == Quotes(before) + Quotes(after)
  {
    QuotesAppend(before + text, after);
    QuotesAppend(before, text);
    QuotesAbsent(text);
  }

  /** Each attribute pair carries exactly the two quotes around its value. */
  lemma AttributePairQuotes(name: string, value: string)
    ensures Quotes(AttributePair(name, value)) == 2
  {
    ClearIsClean(name);
    ClearIsClean(value);
    QuotesSlot(Clear(name) + "=\"", Clear(value), "\"");
    QuotesAppend(Clear(name), "=\"");
    QuotesAbsent(Clear(name));
    assert Quotes("=\"") == 1;
    assert Quotes("\"") == 1;
  }

  lemma {:induction false} ImplodeQuotes(parts: seq<string>)
    requires forall i :: 0 <= i < |parts| ==> Quotes(parts[i]) == 2
    ensures Quotes(Implode(" ", parts)) == 2 * |parts|
  {
    if |parts| > 1 {
      ImplodeQuotes(parts[1..]);
      QuotesSlot(parts[0], " ", Implode(" ", parts[1..]));
    }
  }

  /**
   * A rendered attribute list has exactly two quotes per attribute, whatever
   * the stored names and values were.
   */
  lemma AttributesQuotes(attributes: Entries<string, string>)
    ensures Quotes(Attributes(attributes)) == 2 * |attributes|
  {
    var pairs := AttributePairs(attributes);
    forall i | 0 <= i < |pairs| ensures Quotes(pairs[i]) == 2 {
      AttributePairQuotes(attributes[i].0, attributes[i].1);
    }
    ImplodeQuotes(pairs);
  }

  lemma QuotesDrop(before: string, text: string)
    requires '"' !in text
    ensures Quotes(before + text) == Quotes(before)
  {
    QuotesAppend(before, text);
    QuotesAbsent(text);
  }

  /** Filling one slot of a template with either of two quote-free texts gives the same count. */
  lemma SameQuotes1(p0: string, p1: string, x: string, y: string)
    requires '"' !in x && '"' !in y
    ensures Quotes(p0 + x + p1) == Quotes(p0 + y + p1)
  {
    QuotesSlot(p0, x, p1);
    QuotesSlot(p0, y, p1);
  }

  lemma Split3(p0: string, p1: string, p2: string, p3: string, x1: string, x2: string, x3: string)
    requires '"' !in x1 && '"' !in x2 && '"' !in x3
    ensures Quotes(p0 + x1 + p1 + x2 + p2 + x3 + p3) == Quotes(p0) + Quotes(p1) + Quotes(p2) + Quotes(p3)
  {
    QuotesAppend(p0 + x1 + p1 + x2 + p2 + x3, p3);
    QuotesDrop(p0 + x1 + p1 + x2 + p2, x3);
    QuotesAppend(p0 + x1 + p1 + x2, p2);
    QuotesDrop(p0 + x1 + p1, x2);
    QuotesAppend(p0 + x1, p1);
    QuotesDrop(p0, x1);
  }

  /** The same for three slots. */
  lemma SameQuotes3(p0: string, p1: string, p2: string, p3: string,
                    x1: string, x2: string, x3: string, y1: string, y2: string, y3: string)
    requires '"' !in x1 && '"' !in x2 && '"' !in x3
    requires '"' !in y1 && '"' !in y2 && '"' !in y3
    ensures Quotes(p0 + x1 + p1 + x2 + p2 + x3 + p3) == Quotes(p0 + y1 + p1 + y2 + p2 + y3 + p3)
  {
    Split3(p0, p1, p2, p3, x1, x2, x3);
    Split3(p0, p1, p2, p3, y1, y2, y3);
  }

  /**
   * Two slots, the second filled by texts with known counts: the counts differ
   * by exactly the difference of those texts' counts.
   */
  lemma ShiftQuotes2(p0: string, p1: string, p2: string, x: string, y: string, a: string, b: string)
    requires '"' !in x && '"' !in y
    ensures Quotes(p0 + x + p1 + a + p2) + Quotes(b) == Quotes(p0 + y + p1 + b + p2) + Quotes(a)
  {
    QuotesAppend(p0 + x + p1 + a, p2);
    QuotesAppend(p0 + x + p1, a);
    QuotesSlot(p0, x, p1);
    QuotesAppend(p0 + y + p1 + b, p2);
    QuotesAppend(p0 + y + p1, b);
    QuotesSlot(p0, y, p1);
  }

  /**
   * The number of quotes in a meta tag does not depend on what it holds, as
   * long as the kind and key are quote-free: neither the key nor the content
   * can close an attribute.
   */
  lemma MetaTagQuotes(kind: string, key: string, value: string, kind': string, key': string, value': string)
    requires '"' !in kind && '"' !in key && '"' !in kind' && '"' !in key'
    ensures Quotes(MetaTag(kind, key, value)) == Quotes(MetaTag(kind', key', value'))
  {
    ClearIsClean(value);
    ClearIsClean(value');
    SameQuotes3("<meta ", "=\"", "\" content=\"", "\" />", kind, key, Clear(value), kind', key', Clear(value'));
  }

  /**
   * A link tag over a quote-free href has two more quotes per attribute than
   * a link tag with no attributes, whatever the names and values.
   */
  lemma LinkTagQuotes(href: string, attributes: Entries<string, string>, href': string)
    requires '"' !in href && '"' !in href'
    ensures Quotes(LinkTag(href, attributes)) == Quotes(LinkTag(href', [])) + 2 * |attributes|
  {
    AttributesQuotes(attributes);
    AttributesQuotes([]);
    ShiftQuotes2("<link href=\"", "\" ", "/>", href, href', Attributes(attributes), Attributes([]));
  }

  /** The number of quotes in a script tag does not depend on its quote-free source. */
  lemma ScriptTagQuotes(src: string, src': string)
    requires '"' !in src && '"' !in src'
    ensures Quotes(ScriptTag(src)) == Quotes(ScriptTag(src'))
  {
    SameQuotes1("<script type=\"text/javascript\" src=\"", "\"></script>", src, src');
  }

  /** A group over quote-free keys renders tags with as many quotes as any other meta tag. */
  lemma MetaGroupQuotes(kind: string, m: Entries<string, string>, kind': string, key': string, value': string)
    requires '"' !in kind && forall i :: 0 <= i < |m| ==> '"' !in m[i].0
    requires '"' !in kind' && '"' !in key'
    ensures forall i :: 0 <= i < |m| ==> Quotes(MetaGroup(kind, m)[i]) == Quotes(MetaTag(kind', key', value'))
  {
    MetaGroupAt(kind, m);
    forall i | 0 <= i < |m| ensures Quotes(MetaGroup(kind, m)[i]) == Quotes(MetaTag(kind', key', value')) {
      MetaTagQuotes(kind, m[i].0, m[i].1, kind', key', value');
    }
  }
}

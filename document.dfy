/**
 * `Parishop\Document`: a request-scoped builder that collects a page's title,
 * meta tags, links and scripts, and renders them as HTML fragments.
 *
 * The collected state is also available as one value, `PageHead`; each
 * mutator of the class is specified by a function from the old head to the
 * new one, and the promises of the builder are lemmas about those functions.
 */
module Parishop {
  import opened PhpValues
  import opened PhpArrays
  import opened Sanitizer
  import opened Markup

  /** Everything the builder has collected, as one value. */
  datatype PageHead = PageHead(
    title: Option<string>,
    metaNames: Entries<string, string>,
    metaProperties: Entries<string, string>,
    metaHttp: Entries<string, string>,
    links: Entries<string, Entries<string, string>>,
    scripts: Entries<string, string>)

  /** A builder before any call: no title and five empty arrays. */
  const EmptyHead: PageHead := PageHead(None, [], [], [], [], [])

  ghost predicate CleanKeys<V>(m: Entries<string, V>) {
    forall e :: e in m ==> Clean(e.0)
  }

  ghost predicate CleanValues(m: Entries<string, string>) {
    forall e :: e in m ==> Clean(e.1)
  }

  /**
   * What every head the builder can reach satisfies: the arrays have distinct
   * keys, every key went through `clear`, and so did the title and the values
   * of the name and http-equiv groups; a script's value is its key.  Property
   * values and link attributes are stored as given.
   */
  ghost predicate WellFormed(h: PageHead) {
    && DistinctKeys(h.metaNames) && DistinctKeys(h.metaProperties) && DistinctKeys(h.metaHttp)
    && DistinctKeys(h.links) && DistinctKeys(h.scripts)
    && (h.title.Some? ==> Clean(h.title.value))
    && CleanKeys(h.metaNames) && CleanValues(h.metaNames)
    && CleanKeys(h.metaProperties)
    && CleanKeys(h.metaHttp) && CleanValues(h.metaHttp)
    && CleanKeys(h.links)
    && (forall e :: e in h.scripts ==> Clean(e.0) && e.1 == e.0)
  }

  // ---------------------------------------------------------------------------
  // The mutators, as functions of the head

  /** `title($title)`: a given title, even "", is cleaned and stored; `null` keeps the old one. */
  function WithTitle(h: PageHead, title: Option<string>): PageHead {
    if title.Some? then h.(title := Some(Clear(title.value))) else h
  }

  /** `addMetaName($name, $value)`. */
  function WithMetaName(h: PageHead, name: string, value: string): PageHead {
    if Truthy(name) && Truthy(value) then h.(metaNames := Put(h.metaNames, Clear(name), Clear(value))) else h
  }

  /** `setMetaProperty($name, $value)`: the value is stored as given. */
  function WithMetaProperty(h: PageHead, name: string, value: string): PageHead {
    if Truthy(name) && Truthy(value) then h.(metaProperties := Put(h.metaProperties, Clear(name), value)) else h
  }

  /** `addMetaHttp($name, $value)`. */
  function WithMetaHttp(h: PageHead, name: string, value: string): PageHead {
    if Truthy(name) && Truthy(value) then h.(metaHttp := Put(h.metaHttp, Clear(name), Clear(value))) else h
  }

  /** `setLink($href, $attributes)`: the attributes are stored as given. */
  function WithLink(h: PageHead, href: string, attributes: Entries<string, string>): PageHead {
    if Truthy(href) && |attributes| > 0 then h.(links := Put(h.links, Clear(href), attributes)) else h
  }

  /** The attribute array `addLink` builds: `rel` first, then `type` when one is given. */
  function LinkAttributes(rel: string, mediaType: Option<string>): Entries<string, string> {
    [("rel", Clear(rel))] + (if mediaType.Some? then [("type", Clear(mediaType.value))] else [])
  }

  /** `addLink($href, $rel, $type)`: `setLink` on the cleaned href. */
  function WithAddedLink(h: PageHead, href: string, rel: string, mediaType: Option<string>): PageHead {
    WithLink(h, Clear(href), LinkAttributes(rel, mediaType))
  }

  /** `addScript($href)`. */
  function WithScript(h: PageHead, href: string): PageHead {
    if Truthy(href) then h.(scripts := Put(h.scripts, Clear(href), Clear(href))) else h
  }

  // ---------------------------------------------------------------------------
  // What the mutators promise

  lemma PutKeepsClean<V>(m: Entries<string, V>, k: string, v: V)
    requires CleanKeys(m) && Clean(k)
    ensures CleanKeys(Put(m, k, v))
  {
    PutEntries(m, k, v);
  }

  lemma PutKeepsCleanValues(m: Entries<string, string>, k: string, v: string)
    requires CleanValues(m) && Clean(v)
    ensures CleanValues(Put(m, k, v))
  {
    PutEntries(m, k, v);
  }

  lemma WithTitleWellFormed(h: PageHead, title: Option<string>)
    requires WellFormed(h)
    ensures WellFormed(WithTitle(h, title))
  {
    if title.Some? {
      ClearIsClean(title.value);
    }
  }

  lemma WithMetaNameWellFormed(h: PageHead, name: string, value: string)
    requires WellFormed(h)
    ensures WellFormed(WithMetaName(h, name, value))
  {
    ClearIsClean(name);
    ClearIsClean(value);
    PutDistinct(h.metaNames, Clear(name), Clear(value));
    PutKeepsClean(h.metaNames, Clear(name), Clear(value));
    PutKeepsCleanValues(h.metaNames, Clear(name), Clear(value));
  }

  lemma WithMetaPropertyWellFormed(h: PageHead, name: string, value: string)
    requires WellFormed(h)
    ensures WellFormed(WithMetaProperty(h, name, value))
  {
    ClearIsClean(name);
    PutDistinct(h.metaProperties, Clear(name), value);
    PutKeepsClean(h.metaProperties, Clear(name), value);
  }

  lemma WithMetaHttpWellFormed(h: PageHead, name: string, value: string)
    requires WellFormed(h)
    ensures WellFormed(WithMetaHttp(h, name, value))
  {
    ClearIsClean(name);
    ClearIsClean(value);
    PutDistinct(h.metaHttp, Clear(name), Clear(value));
    PutKeepsClean(h.metaHttp, Clear(name), Clear(value));
    PutKeepsCleanValues(h.metaHttp, Clear(name), Clear(value));
  }

  lemma WithLinkWellFormed(h: PageHead, href: string, attributes: Entries<string, string>)
    requires WellFormed(h)
    ensures WellFormed(WithLink(h, href, attributes))
  {
    ClearIsClean(href);
    PutDistinct(h.links, Clear(href), attributes);
    PutKeepsClean(h.links, Clear(href), attributes);
  }

  lemma WithScriptWellFormed(h: PageHead, href: string)
    requires WellFormed(h)
    ensures WellFormed(WithScript(h, href))
  {
    ClearIsClean(href);
    PutDistinct(h.scripts, Clear(href), Clear(href));
    PutEntries(h.scripts, Clear(href), Clear(href));
  }

  // Each mutator writes one array of the head, through `Put`: an existing
  // cleaned key keeps its place and takes the new value, a new one goes last,
  // and every other part of the head stays as it was.

  lemma MetaNameWrite(h: PageHead, name: string, value: string)
    requires WellFormed(h) && Truthy(name) && Truthy(value)
    ensures var r := WithMetaName(h, name, value);
      && (forall i :: 0 <= i < |h.metaNames| && h.metaNames[i].0 == Clear(name) ==>
            r.metaNames == h.metaNames[i := (Clear(name), Clear(value))])
      && (Get(h.metaNames, Clear(name)).None? ==> r.metaNames == h.metaNames + [(Clear(name), Clear(value))])
      && r.(metaNames := h.metaNames) == h
  {
    PutPlacement(h.metaNames, Clear(name), Clear(value));
  }

  lemma MetaPropertyWrite(h: PageHead, name: string, value: string)
    requires WellFormed(h) && Truthy(name) && Truthy(value)
    ensures var r := WithMetaProperty(h, name, value);
      && (forall i :: 0 <= i < |h.metaProperties| && h.metaProperties[i].0 == Clear(name) ==>
            r.metaProperties == h.metaProperties[i := (Clear(name), value)])
      && (Get(h.metaProperties, Clear(name)).None? ==> r.metaProperties == h.metaProperties + [(Clear(name), value)])
      && r.(metaProperties := h.metaProperties) == h
  {
    PutPlacement(h.metaProperties, Clear(name), value);
  }

  lemma MetaHttpWrite(h: PageHead, name: string, value: string)
    requires WellFormed(h) && Truthy(name) && Truthy(value)
    ensures var r := WithMetaHttp(h, name, value);
      && (forall i :: 0 <= i < |h.metaHttp| && h.metaHttp[i].0 == Clear(name) ==>
            r.metaHttp == h.metaHttp[i := (Clear(name), Clear(value))])
      && (Get(h.metaHttp, Clear(name)).None? ==> r.metaHttp == h.metaHttp + [(Clear(name), Clear(value))])
      && r.(metaHttp := h.metaHttp) == h
  {
    PutPlacement(h.metaHttp, Clear(name), Clear(value));
  }

  lemma LinkWrite(h: PageHead, href: string, attributes: Entries<string, string>)
    requires WellFormed(h) && Truthy(href) && |attributes| > 0
    ensures var r := WithLink(h, href, attributes);
      && (forall i :: 0 <= i < |h.links| && h.links[i].0 == Clear(href) ==>
            r.links == h.links[i := (Clear(href), attributes)])
      && (Get(h.links, Clear(href)).None? ==> r.links == h.links + [(Clear(href), attributes)])
      && r.(links := h.links) == h
  {
    PutPlacement(h.links, Clear(href), attributes);
  }

  lemma ScriptWrite(h: PageHead, href: string)
    requires WellFormed(h) && Truthy(href)
    ensures var r := WithScript(h, href);
      && (Get(h.scripts, Clear(href)).None? ==> r.scripts == h.scripts + [(Clear(href), Clear(href))])
      && r.(scripts := h.scripts) == h
  {
    PutPlacement(h.scripts, Clear(href), Clear(href));
  }

  lemma EmptyHeadWellFormed()
    ensures WellFormed(EmptyHead)
  {
  }

  lemma ClearFalsy()
    ensures Clear("") == "" && Clear("0") == "0"
  {
    ClearPlain("");
    ClearPlain("0");
  }

  /**
   * A falsy name, value or href ("" or "0"), or an empty attribute array,
   * leaves the whole head as it was.
   */
  lemma FalsyArgumentsChangeNothing(h: PageHead, name: string, value: string, href: string,
                                    attributes: Entries<string, string>, rel: string, mediaType: Option<string>)
    ensures !Truthy(name) || !Truthy(value) ==>
      WithMetaName(h, name, value) == h && WithMetaProperty(h, name, value) == h && WithMetaHttp(h, name, value) == h
    ensures !Truthy(href) ==>
      WithLink(h, href, attributes) == h && WithAddedLink(h, href, rel, mediaType) == h && WithScript(h, href) == h
    ensures |attributes| == 0 ==> WithLink(h, href, attributes) == h
  {
    ClearFalsy();
  }

  /**
   * `addLink` cleans the href and `setLink` cleans it again; since cleaning is
   * idempotent the link is stored under the once-cleaned href, and the guard
   * is the truthiness of that cleaned href.
   */
  lemma AddedLinkStoredOnce(h: PageHead, href: string, rel: string, mediaType: Option<string>)
    ensures WithAddedLink(h, href, rel, mediaType)
         == if Truthy(Clear(href)) then h.(links := Put(h.links, Clear(href), LinkAttributes(rel, mediaType))) else h
  {
    ClearIdempotent(href);
  }

  /** Adding a script whose cleaned href is already there changes nothing. */
  lemma ScriptReAddedUnchanged(h: PageHead, href: string)
    requires WellFormed(h) && Get(h.scripts, Clear(href)).Some?
    ensures WithScript(h, href) == h
  {
    var i := Find(h.scripts, Clear(href));
    assert h.scripts[i] in h.scripts;
    PutSameValue(h.scripts, Clear(href), Clear(href));
  }

  /** The title setter: `null` reads, anything else writes, and the last write wins. */
  lemma TitleLastWriteWins(h: PageHead, first: string, second: string)
    ensures WithTitle(h, None) == h
    ensures WithTitle(WithTitle(h, Some(first)), Some(second)) == WithTitle(h, Some(second))
    ensures WithTitle(h, Some("")).title == Some("")
  {
    ClearFalsy();
  }

  /** What `getMeta` renders for a head: the name group, the property group, then the http-equiv group. */
  function RenderedMeta(h: PageHead): (meta: seq<string>)
    ensures |meta| == |h.metaNames| + |h.metaProperties| + |h.metaHttp|
  {
    MetaGroup("name", h.metaNames) + MetaGroup("property", h.metaProperties) + MetaGroup("http-equiv", h.metaHttp)
  }

  /** Each rendered meta tag belongs to one stored entry, in group order then insertion order. */
  lemma RenderedMetaAt(h: PageHead)
    ensures forall i :: 0 <= i < |h.metaNames| ==>
      RenderedMeta(h)[i] == MetaTag("name", h.metaNames[i].0, h.metaNames[i].1)
    ensures forall i :: 0 <= i < |h.metaProperties| ==>
      RenderedMeta(h)[|h.metaNames| + i] == MetaTag("property", h.metaProperties[i].0, h.metaProperties[i].1)
    ensures forall i :: 0 <= i < |h.metaHttp| ==>
      RenderedMeta(h)[|h.metaNames| + |h.metaProperties| + i] == MetaTag("http-equiv", h.metaHttp[i].0, h.metaHttp[i].1)
  {
    MetaGroupAt("name", h.metaNames);
    MetaGroupAt("property", h.metaProperties);
    MetaGroupAt("http-equiv", h.metaHttp);
  }

  lemma CleanKeysQuoteFree<V>(m: Entries<string, V>)
    requires CleanKeys(m)
    ensures forall i :: 0 <= i < |m| ==> '"' !in m[i].0
  {
    forall i | 0 <= i < |m| ensures '"' !in m[i].0 {
      assert m[i] in m;
    }
  }

  lemma ThreeGroupsQuotes(a: seq<string>, b: seq<string>, c: seq<string>, n: nat)
    requires forall i :: 0 <= i < |a| ==> Quotes(a[i]) == n
    requires forall i :: 0 <= i < |b| ==> Quotes(b[i]) == n
    requires forall i :: 0 <= i < |c| ==> Quotes(c[i]) == n
    ensures forall i :: 0 <= i < |a + b + c| ==> Quotes((a + b + c)[i]) == n
  {
    forall i | 0 <= i < |a + b + c| ensures Quotes((a + b + c)[i]) == n {
      if i < |a| {
        assert (a + b + c)[i] == a[i];
      } else if i < |a| + |b| {
        assert (a + b + c)[i] == b[i - |a|];
      } else {
        assert (a + b + c)[i] == c[i - |a| - |b|];
      }
    }
  }

  /**
   * Whatever a well-formed head holds, each of its rendered meta tags has as
   * many quotes as a meta tag over any quote-free kind and key: no stored key
   * or content closes an attribute early.
   */
  lemma RenderedMetaQuotes(h: PageHead, kind: string, key: string, value: string)
    requires WellFormed(h) && '"' !in kind && '"' !in key
    ensures forall i :: 0 <= i < |RenderedMeta(h)| ==> Quotes(RenderedMeta(h)[i]) == Quotes(MetaTag(kind, key, value))
  {
    CleanKeysQuoteFree(h.metaNames);
    CleanKeysQuoteFree(h.metaProperties);
    CleanKeysQuoteFree(h.metaHttp);
    MetaGroupQuotes("name", h.metaNames, kind, key, value);
    MetaGroupQuotes("property", h.metaProperties, kind, key, value);
    MetaGroupQuotes("http-equiv", h.metaHttp, kind, key, value);
    ThreeGroupsQuotes(MetaGroup("name", h.metaNames), MetaGroup("property", h.metaProperties),
                      MetaGroup("http-equiv", h.metaHttp), Quotes(MetaTag(kind, key, value)));
  }

  /**
   * In a well-formed head, a stored link renders with two quotes per
   * attribute more than an attribute-less link over any quote-free href.
   */
  lemma StoredLinkQuotes(h: PageHead, i: nat, href: string)
    requires WellFormed(h) && i < |h.links| && '"' !in href
    ensures Quotes(LinkTag(h.links[i].0, h.links[i].1)) == Quotes(LinkTag(href, [])) + 2 * |h.links[i].1|
  {
    assert h.links[i] in h.links;
    LinkTagQuotes(h.links[i].0, h.links[i].1, href);
  }

  /** In a well-formed head, a stored script renders with as many quotes as any quote-free script tag. */
  lemma StoredScriptQuotes(h: PageHead, i: nat, src: string)
    requires WellFormed(h) && i < |h.scripts| && '"' !in src
    ensures Quotes(ScriptTag(h.scripts[i].0)) == Quotes(ScriptTag(src))
  {
    assert h.scripts[i] in h.scripts;
    ScriptTagQuotes(h.scripts[i].0, src);
  }

  lemma TwoAttributes(k1: string, v1: string, k2: string, v2: string)
    ensures Attributes([(k1, v1), (k2, v2)]) == AttributePair(k1, v1) + " " + AttributePair(k2, v2)
  {
    var pairs := AttributePairs([(k1, v1), (k2, v2)]);
    assert pairs == [AttributePair(k1, v1), AttributePair(k2, v2)];
    assert pairs[1..] == [AttributePair(k2, v2)];
    assert Implode(" ", pairs[1..]) == AttributePair(k2, v2);
    assert Implode(" ", pairs) == pairs[0] + " " + Implode(" ", pairs[1..]);
  }

  lemma OneAttribute(k: string, v: string)
    ensures Attributes([(k, v)]) == AttributePair(k, v)
  {
    assert AttributePairs([(k, v)]) == [AttributePair(k, v)];
  }

  /** A cleaned attribute name and value render as they are. */
  lemma CleanAttributePair(k: string, v: string)
    requires Clean(k) && Clean(v)
    ensures AttributePair(k, v) == k + "=\"" + v + "\""
  {
    ClearFixed(k);
    ClearFixed(v);
  }

  lemma ClearAttributeNames()
    ensures Clean("rel") && Clean("type")
  {
    PlainIsClean("rel");
    PlainIsClean("type");
  }

  lemma RelTypeText(x: string, y: string)
    ensures "rel" + "=\"" + x + "\"" + " " + ("type" + "=\"" + y + "\"") == "rel=\"" + x + "\" type=\"" + y + "\""
    ensures "rel" + "=\"" + x + "\"" == "rel=\"" + x + "\""
  {
    assert "rel" + "=\"" == "rel=\"";
    assert "\"" + " " + ("type" + "=\"") == "\" type=\"";
  }

  /** The attribute list `addLink` stores renders as `rel="…" type="…"`, cleaned once. */
  lemma LinkAttributesRendered(rel: string, mediaType: string)
    ensures Attributes(LinkAttributes(rel, Some(mediaType)))
         == "rel=\"" + Clear(rel) + "\" type=\"" + Clear(mediaType) + "\""
    ensures Attributes(LinkAttributes(rel, None)) == "rel=\"" + Clear(rel) + "\""
  {
    var x, y := Clear(rel), Clear(mediaType);
    ClearAttributeNames();
    ClearIsClean(rel);
    ClearIsClean(mediaType);
    assert LinkAttributes(rel, Some(mediaType)) == [("rel", x), ("type", y)];
    assert LinkAttributes(rel, None) == [("rel", x)];
    TwoAttributes("rel", x, "type", y);
    OneAttribute("rel", x);
    CleanAttributePair("rel", x);
    CleanAttributePair("type", y);
    RelTypeText(x, y);
  }

  // ---------------------------------------------------------------------------
  // The builder object

  class Document {
    var title: Option<string>
    var metaNames: Entries<string, string>
    var metaProperties: Entries<string, string>
    var metaHttp: Entries<string, string>
    var links: Entries<string, Entries<string, string>>
    var scripts: Entries<string, string>

    /** `name()`: the name the builder is registered under with the template engine. */
    static function Name(): string {
      "document"
    }

    /** `aliases()`: the builder has no other names. */
    static function Aliases(): seq<string> {
      []
    }

    /** The collected head as one value. */
    function Head(): PageHead
      reads this
    {
      PageHead(title, metaNames, metaProperties, metaHttp, links, scripts)
    }

    ghost predicate Valid()
      reads this
    {
      WellFormed(Head())
    }

    constructor ()
      ensures Valid() && Head() == EmptyHead
    {
      title := None;
      metaNames, metaProperties, metaHttp := [], [], [];
      links, scripts := [], [];
    }

    // -------------------------------------------------------------------------
    // Mutators

    method AddLess(href: string)
      requires Valid()
      modifies this
      ensures Valid() && Head() == WithAddedLink(old(Head()), href, "stylesheet/less", Some("text/css"))
    {
      AddLink(href, "stylesheet/less", Some("text/css"));
    }

    method AddLink(href: string, rel: string, mediaType: Option<string>)
      requires Valid()
      modifies this
      ensures Valid() && Head() == WithAddedLink(old(Head()), href, rel, mediaType)
    {
      var attributes: Entries<string, string> := [];
      if mediaType.Some? {
        attributes := Put(attributes, "type", Clear(mediaType.value));
      }
      assert [("rel", Clear(rel))] + attributes == LinkAttributes(rel, mediaType);
      SetLink(Clear(href), [("rel", Clear(rel))] + attributes);
    }

    method AddMetaHttp(name: string, value: string)
      requires Valid()
      modifies this
      ensures Valid() && Head() == WithMetaHttp(old(Head()), name, value)
      ensures !Truthy(name) || !Truthy(value) ==> Head() == old(Head())
    {
      WithMetaHttpWellFormed(Head(), name, value);
      if Truthy(name) && Truthy(value) {
        metaHttp := Put(metaHttp, Clear(name), Clear(value));
      }
    }

    method AddMetaName(name: string, value: string)
      requires Valid()
      modifies this
      ensures Valid() && Head() == WithMetaName(old(Head()), name, value)
      ensures !Truthy(name) || !Truthy(value) ==> Head() == old(Head())
    {
      WithMetaNameWellFormed(Head(), name, value);
      if Truthy(name) && Truthy(value) {
        metaNames := Put(metaNames, Clear(name), Clear(value));
      }
    }

    method AddScript(href: string)
      requires Valid()
      modifies this
      ensures Valid() && Head() == WithScript(old(Head()), href)
      ensures !Truthy(href) ==> Head() == old(Head())
    {
      WithScriptWellFormed(Head(), href);
      if Truthy(href) {
        scripts := Put(scripts, Clear(href), Clear(href));
      }
    }

    method AddStylesheet(href: string)
      requires Valid()
      modifies this
      ensures Valid() && Head() == WithAddedLink(old(Head()), href, "stylesheet", Some("text/css"))
    {
      AddLink(href, "stylesheet", Some("text/css"));
    }

    method SetLink(href: string, attributes: Entries<string, string>)
      requires Valid()
      modifies this
      ensures Valid() && Head() == WithLink(old(Head()), href, attributes)
      ensures !Truthy(href) || |attributes| == 0 ==> Head() == old(Head())
    {
      WithLinkWellFormed(Head(), href, attributes);
      if Truthy(href) && |attributes| > 0 {
        links := Put(links, Clear(href), attributes);
      }
    }

    method SetMetaDescription(value: string)
      requires Valid()
      modifies this
      ensures Valid() && Head() == WithMetaName(old(Head()), "description", value)
    {
      AddMetaName("description", value);
    }

    method SetMetaKeywords(value: string)
      requires Valid()
      modifies this
      ensures Valid() && Head() == WithMetaName(old(Head()), "keywords", value)
    {
      AddMetaName("keywords", value);
    }

    method SetMetaOgDescription(value: string)
      requires Valid()
      modifies this
      ensures Valid() && Head() == WithMetaProperty(old(Head()), "og:description", value)
    {
      SetMetaProperty("og:description", value);
    }

    method SetMetaOgImage(value: string)
      requires Valid()
      modifies this
      ensures Valid() && Head() == WithMetaProperty(old(Head()), "og:image", value)
    {
      SetMetaProperty("og:image", value);
    }

    method SetMetaOgTitle(value: string)
      requires Valid()
      modifies this
      ensures Valid() && Head() == WithMetaProperty(old(Head()), "og:title", value)
    {
      SetMetaProperty("og:title", value);
    }

    method SetMetaProperty(name: string, value: string)
      requires Valid()
      modifies this
      ensures Valid() && Head() == WithMetaProperty(old(Head()), name, value)
      ensures !Truthy(name) || !Truthy(value) ==> Head() == old(Head())
    {
      WithMetaPropertyWellFormed(Head(), name, value);
      if Truthy(name) && Truthy(value) {
        metaProperties := Put(metaProperties, Clear(name), value);
      }
    }

    /** Sets the title when one is given (even ""), and returns the current title. */
    method Title(newTitle: Option<string>) returns (current: Option<string>)
      requires Valid()
      modifies this
      ensures Valid() && Head() == WithTitle(old(Head()), newTitle)
      ensures current == title
    {
      WithTitleWellFormed(Head(), newTitle);
      if newTitle.Some? {
        title := Some(Clear(newTitle.value));
      }
      current := title;
    }

    // -------------------------------------------------------------------------
    // Renderers

    /**
     * One `<meta>` per entry: the name group, then the property group, then the
     * http-equiv group, each in insertion order, the content always cleaned
     * (see `RenderedMetaAt` and `RenderedMetaQuotes`).
     */
    method GetMeta() returns (meta: seq<string>)
      ensures meta == RenderedMeta(Head())
    {
      meta := [];
      for i := 0 to |metaNames|
        invariant meta == MetaGroup("name", metaNames[..i])
      {
        meta := meta + [MetaTag("name", metaNames[i].0, metaNames[i].1)];
        assert metaNames[..i + 1][..i] == metaNames[..i];
      }
      assert metaNames[..|metaNames|] == metaNames;
      var names := meta;
      for i := 0 to |metaProperties|
        invariant meta == names + MetaGroup("property", metaProperties[..i])
      {
        meta := meta + [MetaTag("property", metaProperties[i].0, metaProperties[i].1)];
        assert metaProperties[..i + 1][..i] == metaProperties[..i];
      }
      assert metaProperties[..|metaProperties|] == metaProperties;
      var namesAndProperties := meta;
      for i := 0 to |metaHttp|
        invariant meta == namesAndProperties + MetaGroup("http-equiv", metaHttp[..i])
      {
        meta := meta + [MetaTag("http-equiv", metaHttp[i].0, metaHttp[i].1)];
        assert metaHttp[..i + 1][..i] == metaHttp[..i];
      }
      assert metaHttp[..|metaHttp|] == metaHttp;
    }

    /** One `<link href="H" k1="v1" k2="v2"/>` per link, in insertion order (see `StoredLinkQuotes`). */
    method GetLinks() returns (tags: seq<string>)
      ensures |tags| == |links|
      ensures forall i :: 0 <= i < |links| ==> tags[i] == LinkTag(links[i].0, links[i].1)
    {
      tags := [];
      for i := 0 to |links|
        invariant |tags| == i
        invariant forall j :: 0 <= j < i ==> tags[j] == LinkTag(links[j].0, links[j].1)
      {
        var attributes := Parse(links[i].1);
        tags := tags + ["<link href=\"" + links[i].0 + "\" " + attributes + "/>"];
      }
    }

    /**
     * One `<script>` per entry, in insertion order, its source the cleaned
     * stored value; in a valid builder that is the entry's own key.
     */
    method GetScripts() returns (tags: seq<string>)
      ensures |tags| == |scripts|
      ensures forall i :: 0 <= i < |scripts| ==> tags[i] == ScriptTag(Clear(scripts[i].1))
      ensures Valid() ==> forall i :: 0 <= i < |scripts| ==> tags[i] == ScriptTag(scripts[i].0)
    {
      tags := [];
      for i := 0 to |scripts|
        invariant |tags| == i
        invariant forall j :: 0 <= j < i ==> tags[j] == ScriptTag(Clear(scripts[j].1))
      {
        tags := tags + ["<script type=\"text/javascript\" src=\"" + Clear(scripts[i].1) + "\"></script>"];
      }
      if Valid() {
        forall i | 0 <= i < |scripts| ensures tags[i] == ScriptTag(scripts[i].0) {
          assert scripts[i] in scripts;
          ClearFixed(scripts[i].1);
        }
      }
    }

    /** `parse`: the attribute pairs, both sides cleaned, joined by single spaces. */
    static method Parse(attributes: Entries<string, string>) returns (result: string)
      ensures result == Attributes(attributes)
    {
      var pairs: seq<string> := [];
      for i := 0 to |attributes|
        invariant |pairs| == i
        invariant forall j :: 0 <= j < i ==> pairs[j] == AttributePair(attributes[j].0, attributes[j].1)
      {
        pairs := pairs + [Clear(attributes[i].0) + "=\"" + Clear(attributes[i].1) + "\""];
      }
      assert pairs == AttributePairs(attributes);
      result := Implode(" ", pairs);
    }
  }
}

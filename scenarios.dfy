/**
 * The builder's own usage examples, replayed on the model with their
 * arguments generalised: a fresh builder, a few calls, and the exact
 * fragments it renders.
 */
module ParishopScenarios {
  import opened PhpValues
  import opened PhpArrays
  import opened Sanitizer
  import opened Markup
  import opened Parishop

  /** An argument that a mutator accepts and `clear` leaves alone. */
  predicate Plain(s: string) {
    Truthy(s) && '<' !in s && '"' !in s && SingleSpaced(s) && Trimmed(s)
  }

  /** One script added to a fresh builder renders as one script tag. */
  method ScriptsScenario(src: string) returns (tags: seq<string>)
    requires Plain(src)
    ensures tags == ["<script type=\"text/javascript\" src=\"" + src + "\"></script>"]
  {
    var d := new Document();
    d.AddScript(src);
    ClearPlain(src);
    tags := d.GetScripts();
  }

  /** The `rel` and `type` words of `addLess` and `addStylesheet` come out of `clear` as they went in. */
  lemma LessRelClean()
    ensures Clear("stylesheet/less") == "stylesheet/less"
  {
    ClearPlain("stylesheet/less");
  }

  lemma StylesheetRelClean()
    ensures Clear("stylesheet") == "stylesheet"
  {
    ClearPlain("stylesheet");
  }

  lemma CssTypeClean()
    ensures Clear("text/css") == "text/css"
  {
    ClearPlain("text/css");
  }

  /**
   * `addLink` with words `clear` leaves alone stores the href itself with a
   * `rel` and a `type` attribute, rendered as `rel="REL" type="TYPE"`.
   */
  lemma CleanLinkStored(h: PageHead, href: string, rel: string, mediaType: string)
    requires Truthy(href) && Clear(href) == href && Clear(rel) == rel && Clear(mediaType) == mediaType
    ensures WithAddedLink(h, href, rel, Some(mediaType))
         == h.(links := Put(h.links, href, [("rel", rel), ("type", mediaType)]))
    ensures Attributes([("rel", rel), ("type", mediaType)]) == "rel=\"" + rel + "\" type=\"" + mediaType + "\""
  {
    assert LinkAttributes(rel, Some(mediaType)) == [("rel", rel), ("type", mediaType)];
    LinkAttributesRendered(rel, mediaType);
  }

  lemma LessWords()
    ensures "rel=\"" + "stylesheet/less" + "\" type=\"" + "text/css" + "\"" == "rel=\"stylesheet/less\" type=\"text/css\""
  {
  }

  lemma StylesheetWords()
    ensures "rel=\"" + "stylesheet" + "\" type=\"" + "text/css" + "\"" == "rel=\"stylesheet\" type=\"text/css\""
  {
  }

  /** `addLess(href)` with a plain href stores `rel="stylesheet/less" type="text/css"` under the href. */
  lemma LessLinkStored(h: PageHead, href: string)
    requires Plain(href)
    ensures WithAddedLink(h, href, "stylesheet/less", Some("text/css"))
         == h.(links := Put(h.links, href, [("rel", "stylesheet/less"), ("type", "text/css")]))
    ensures Attributes([("rel", "stylesheet/less"), ("type", "text/css")]) == "rel=\"stylesheet/less\" type=\"text/css\""
  {
    ClearPlain(href);
    LessRelClean();
    CssTypeClean();
    CleanLinkStored(h, href, "stylesheet/less", "text/css");
    LessWords();
  }

  /** `addStylesheet(href)` with a plain href stores `rel="stylesheet" type="text/css"` under the href. */
  lemma StylesheetLinkStored(h: PageHead, href: string)
    requires Plain(href)
    ensures WithAddedLink(h, href, "stylesheet", Some("text/css"))
         == h.(links := Put(h.links, href, [("rel", "stylesheet"), ("type", "text/css")]))
    ensures Attributes([("rel", "stylesheet"), ("type", "text/css")]) == "rel=\"stylesheet\" type=\"text/css\""
  {
    ClearPlain(href);
    StylesheetRelClean();
    CssTypeClean();
    CleanLinkStored(h, href, "stylesheet", "text/css");
    StylesheetWords();
  }

  lemma LessTail()
    ensures "\" " + "rel=\"stylesheet/less\" type=\"text/css\"" + "/>" == "\" rel=\"stylesheet/less\" type=\"text/css\"/>"
  {
  }

  lemma StylesheetTail()
    ensures "\" " + "rel=\"stylesheet\" type=\"text/css\"" + "/>" == "\" rel=\"stylesheet\" type=\"text/css\"/>"
  {
  }

  /** A link tag whose attributes render as `text` is the href slot followed by `text` and the closing `/>`. */
  lemma LinkTagText(href: string, attributes: Entries<string, string>, text: string, tail: string)
    requires Attributes(attributes) == text && "\" " + text + "/>" == tail
    ensures LinkTag(href, attributes) == "<link href=\"" + href + tail
  {
    assert "<link href=\"" + href + "\" " + text + "/>" == ("<link href=\"" + href) + ("\" " + text + "/>");
  }

  /** The link `addLess(href)` stores renders as in the links example. */
  lemma LessLinkTag(href: string)
    requires Plain(href)
    ensures LinkTag(href, [("rel", "stylesheet/less"), ("type", "text/css")])
         == "<link href=\"" + href + "\" rel=\"stylesheet/less\" type=\"text/css\"/>"
  {
    LessLinkStored(EmptyHead, href);
    LessTail();
    LinkTagText(href, [("rel", "stylesheet/less"), ("type", "text/css")],
                "rel=\"stylesheet/less\" type=\"text/css\"", "\" rel=\"stylesheet/less\" type=\"text/css\"/>");
  }

  /** The link `addStylesheet(href)` stores renders as in the links example. */
  lemma StylesheetLinkTag(href: string)
    requires Plain(href)
    ensures LinkTag(href, [("rel", "stylesheet"), ("type", "text/css")])
         == "<link href=\"" + href + "\" rel=\"stylesheet\" type=\"text/css\"/>"
  {
    StylesheetLinkStored(EmptyHead, href);
    StylesheetTail();
    LinkTagText(href, [("rel", "stylesheet"), ("type", "text/css")],
                "rel=\"stylesheet\" type=\"text/css\"", "\" rel=\"stylesheet\" type=\"text/css\"/>");
  }

  /** Two different hrefs linked with words `clear` leaves alone are stored in the order they were added. */
  lemma TwoLinksStored(first: string, second: string, firstRel: string, secondRel: string, mediaType: string)
    requires Truthy(first) && Clear(first) == first && Truthy(second) && Clear(second) == second && first != second
    requires Clear(firstRel) == firstRel && Clear(secondRel) == secondRel && Clear(mediaType) == mediaType
    ensures WithAddedLink(WithAddedLink(EmptyHead, first, firstRel, Some(mediaType)), second, secondRel, Some(mediaType)).links
         == [(first, [("rel", firstRel), ("type", mediaType)]), (second, [("rel", secondRel), ("type", mediaType)])]
  {
    CleanLinkStored(EmptyHead, first, firstRel, mediaType);
    CleanLinkStored(WithAddedLink(EmptyHead, first, firstRel, Some(mediaType)), second, secondRel, mediaType);
  }

  /** A less file and then a different stylesheet, added to a fresh builder, are stored in that order. */
  lemma LinksStored(less: string, stylesheet: string)
    requires Plain(less) && Plain(stylesheet) && less != stylesheet
    ensures WithAddedLink(WithAddedLink(EmptyHead, less, "stylesheet/less", Some("text/css")),
                          stylesheet, "stylesheet", Some("text/css")).links
         == [(less, [("rel", "stylesheet/less"), ("type", "text/css")]),
             (stylesheet, [("rel", "stylesheet"), ("type", "text/css")])]
  {
    ClearPlain(less);
    ClearPlain(stylesheet);
    LessRelClean();
    StylesheetRelClean();
    CssTypeClean();
    TwoLinksStored(less, stylesheet, "stylesheet/less", "stylesheet", "text/css");
  }

  /** Two stored links render as their two tags, in order. */
  lemma TwoTagsRendered(entries: Entries<string, Entries<string, string>>, links: seq<string>, first: string, second: string)
    requires |entries| == 2 && |links| == 2
    requires forall i :: 0 <= i < |entries| ==> links[i] == LinkTag(entries[i].0, entries[i].1)
    requires LinkTag(entries[0].0, entries[0].1) == first && LinkTag(entries[1].0, entries[1].1) == second
    ensures links == [first, second]
  {
  }

  /** The two stored links render as the two tags of the links example. */
  lemma LinksRendered(less: string, stylesheet: string, entries: Entries<string, Entries<string, string>>,
                      links: seq<string>)
    requires Plain(less) && Plain(stylesheet)
    requires entries == [(less, [("rel", "stylesheet/less"), ("type", "text/css")]),
                         (stylesheet, [("rel", "stylesheet"), ("type", "text/css")])]
    requires |links| == |entries| && forall i :: 0 <= i < |entries| ==> links[i] == LinkTag(entries[i].0, entries[i].1)
    ensures links == [
      "<link href=\"" + less + "\" rel=\"stylesheet/less\" type=\"text/css\"/>",
      "<link href=\"" + stylesheet + "\" rel=\"stylesheet\" type=\"text/css\"/>"]
  {
    LessLinkTag(less);
    StylesheetLinkTag(stylesheet);
    TwoTagsRendered(entries, links,
      "<link href=\"" + less + "\" rel=\"stylesheet/less\" type=\"text/css\"/>",
      "<link href=\"" + stylesheet + "\" rel=\"stylesheet\" type=\"text/css\"/>");
  }

  /**
   * A less file and a stylesheet added to a fresh builder render as two
   * links, in the order they were added.
   */
  method LinksScenario(less: string, stylesheet: string) returns (links: seq<string>)
    requires Plain(less) && Plain(stylesheet) && less != stylesheet
    ensures links == [
      "<link href=\"" + less + "\" rel=\"stylesheet/less\" type=\"text/css\"/>",
      "<link href=\"" + stylesheet + "\" rel=\"stylesheet\" type=\"text/css\"/>"]
  {
    var d := new Document();
    d.AddLess(less);
    d.AddStylesheet(stylesheet);
    LinksStored(less, stylesheet);
    links := d.GetLinks();
    LinksRendered(less, stylesheet, d.links, links);
  }

  /** One entry in each meta group renders as three tags: name, property, header. */
  lemma SingleEntriesRendered(h: PageHead, name: string, nameValue: string, property: string, propertyValue: string,
                              header: string, headerValue: string)
    requires h.metaNames == [(name, nameValue)]
    requires h.metaProperties == [(property, propertyValue)]
    requires h.metaHttp == [(header, headerValue)]
    ensures RenderedMeta(h) == [
      MetaTag("name", name, nameValue),
      MetaTag("property", property, propertyValue),
      MetaTag("http-equiv", header, headerValue)]
  {
    assert MetaGroup("name", h.metaNames) == [MetaTag("name", name, nameValue)];
    assert MetaGroup("property", h.metaProperties) == [MetaTag("property", property, propertyValue)];
    assert MetaGroup("http-equiv", h.metaHttp) == [MetaTag("http-equiv", header, headerValue)];
  }

  /**
   * Meta tags render by group, not by call: an http-equiv header, a property
   * and a name added in that order render name first, then property, then
   * header.
   */
  method MetaGroupsScenario(header: string, headerValue: string, property: string, propertyValue: string,
                            name: string, nameValue: string)
    returns (meta: seq<string>)
    requires Plain(header) && Plain(headerValue) && Plain(property) && Plain(propertyValue)
    requires Plain(name) && Plain(nameValue)
    ensures meta == [
      MetaTag("name", name, nameValue),
      MetaTag("property", property, propertyValue),
      MetaTag("http-equiv", header, headerValue)]
  {
    ClearPlain(header);
    ClearPlain(headerValue);
    ClearPlain(property);
    ClearPlain(name);
    ClearPlain(nameValue);
    var d := new Document();
    d.AddMetaHttp(header, headerValue);
    d.SetMetaProperty(property, propertyValue);
    d.AddMetaName(name, nameValue);
    meta := d.GetMeta();
    SingleEntriesRendered(d.Head(), name, nameValue, property, propertyValue, header, headerValue);
  }
}

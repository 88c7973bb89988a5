/**
 * The only own logic of the builder's `path()` and `url()` helpers: which
 * route resolver they name when the caller gives none, and the route
 * attributes they pass on.  The bundle name (read from the request) is a
 * parameter; the route translator that turns both into a path or URI is not
 * part of this model.
 */
module Routing {
  import opened PhpValues
  import opened PhpArrays

  /**
   * `path()`: a given resolver is used as is; otherwise `BUNDLE.processor`,
   * or `BUNDLE.action` when an action is given, or `BUNDLE.id` when an id is
   * given as well.
   */
  function PathResolver(bundle: string, action: Option<string>, id: Option<string>,
                        resolverPath: Option<string>): string
  {
    if resolverPath.Some? then resolverPath.value
    else if action.None? then bundle + ".processor"
    else if id.None? then bundle + ".action"
    else bundle + ".id"
  }

  /**
   * `url()`: like `path()`, except that without a truthy processor the
   * resolver is `BUNDLE.default`, whatever the action and id.
   */
  function UrlResolver(bundle: string, processor: Option<string>, action: Option<string>, id: Option<string>,
                       resolverPath: Option<string>): string
  {
    if resolverPath.Some? then resolverPath.value
    else if !TruthyOption(processor) then bundle + ".default"
    else if action.None? then bundle + ".processor"
    else if id.None? then bundle + ".action"
    else bundle + ".id"
  }

  /** The attributes both helpers pass on: the caller's, with `processor`, `action` and `id` set, null or not. */
  function RouteAttributes(attributes: Entries<string, Option<string>>, processor: Option<string>,
                           action: Option<string>, id: Option<string>): Entries<string, Option<string>>
  {
    Put(Put(Put(attributes, "processor", processor), "action", action), "id", id)
  }

  /** The resolver `path()` picks: the id resolver needs an action, and an id alone is ignored. */
  lemma PathResolverChoice(bundle: string, action: Option<string>, id: Option<string>)
    ensures PathResolver(bundle, action, id, None) == bundle + ".id" <==> action.Some? && id.Some?
    ensures PathResolver(bundle, action, id, None) == bundle + ".action" <==> action.Some? && id.None?
    ensures PathResolver(bundle, action, id, None) == bundle + ".processor" <==> action.None?
  {
    var r := PathResolver(bundle, action, id, None);
    if r == bundle + ".id" {
      assert r[|bundle|..] == ".id";
    }
    if r == bundle + ".action" {
      assert r[|bundle|..] == ".action";
    }
    if r == bundle + ".processor" {
      assert r[|bundle|..] == ".processor";
    }
  }

  /**
   * `url()` with a truthy processor names the same resolver as `path()`;
   * with a missing or falsy one (`""`, `"0"`) it names the default resolver.
   */
  lemma UrlResolverAgreesWithPath(bundle: string, processor: Option<string>, action: Option<string>,
                                  id: Option<string>, resolverPath: Option<string>)
    ensures TruthyOption(processor) ==>
      UrlResolver(bundle, processor, action, id, resolverPath) == PathResolver(bundle, action, id, resolverPath)
    ensures !TruthyOption(processor) && resolverPath.None? ==>
      UrlResolver(bundle, processor, action, id, resolverPath) == bundle + ".default"
    ensures resolverPath.Some? ==>
      UrlResolver(bundle, processor, action, id, resolverPath) == resolverPath.value
  {
  }

  /**
   * The route attributes hold the given processor, action and id (a null one
   * as an explicit null entry), and every other attribute of the caller.
   */
  lemma RouteAttributesLookup(attributes: Entries<string, Option<string>>, processor: Option<string>,
                              action: Option<string>, id: Option<string>, key: string)
    ensures Get(RouteAttributes(attributes, processor, action, id), "processor") == Some(processor)
    ensures Get(RouteAttributes(attributes, processor, action, id), "action") == Some(action)
    ensures Get(RouteAttributes(attributes, processor, action, id), "id") == Some(id)
    ensures key != "processor" && key != "action" && key != "id" ==>
      Get(RouteAttributes(attributes, processor, action, id), key) == Get(attributes, key)
  {
    var a1 := Put(attributes, "processor", processor);
    var a2 := Put(a1, "action", action);
    GetPut(attributes, "processor", processor, "processor");
    GetPut(attributes, "processor", processor, key);
    GetPut(a1, "action", action, "processor");
    GetPut(a1, "action", action, "action");
    GetPut(a1, "action", action, key);
    GetPut(a2, "id", id, "processor");
    GetPut(a2, "id", id, "action");
    GetPut(a2, "id", id, "id");
    GetPut(a2, "id", id, key);
  }
}

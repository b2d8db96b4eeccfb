/**
 * The request lifecycle of `Y.jsonp` (js/jsonp.js:29-63) and its clean-up
 * `Y.jsonp.clean` (js/jsonp.js:84-101), over the state they change: the
 * proxy slots of the global `YUI` object, the `src` values of the script
 * nodes in the document head, and the static default `Y.jsonp.pattern`.
 * The script loader is a collaborator: it receives the rewritten URL, adds
 * its script node, and later reports whether the load succeeded.
 */
module Jsonp {
  import opened Wrappers
  import opened Arguments
  import Proxy
  import Template
  import Scripts

  /** What the completion callback of one request closes over. */
  datatype Request = Request(proxy: string, url: string, success: Handler, failure: Handler)

  /** A call the dispatcher itself makes to one of the caller's handlers. */
  datatype Invocation = Invocation(handler: Handler, arg: string)

  /**
   * Every slot belongs to exactly one pending request and holds its success
   * handler, and every slot name is a proxy name, free of hyphens.
   */
  ghost predicate Consistent(registry: map<string, Handler>, pending: set<Request>) {
    && registry.Keys == (set r | r in pending :: r.proxy)
    && (forall r :: r in pending ==> r.proxy in registry && registry[r.proxy] == r.success)
    && (forall r1, r2 :: r1 in pending && r2 in pending && r1.proxy == r2.proxy ==> r1 == r2)
    && (forall p :: p in registry ==> '-' !in p)
  }

  /** Issuing a request with a fresh proxy name keeps the registry consistent. */
  lemma InsertConsistent(registry: map<string, Handler>, pending: set<Request>, req: Request)
    requires Consistent(registry, pending)
    requires req.proxy !in registry && '-' !in req.proxy
    ensures Consistent(registry[req.proxy := req.success], pending + {req})
  {
  }

  /** Completing a pending request keeps the registry consistent. */
  lemma RemoveConsistent(registry: map<string, Handler>, pending: set<Request>, req: Request)
    requires Consistent(registry, pending)
    requires req in pending
    ensures Consistent(registry - {req.proxy}, pending - {req})
  {
  }

  class Dispatcher {
    /** The proxy slots `YUI[proxy]`, each holding a success handler. */
    var registry: map<string, Handler>
    /** The `src` of every `head > script[src]` node, in document order. */
    var scripts: seq<string>
    /** The URLs handed to the script loader, in order. */
    var loads: seq<string>
    /** `Y.jsonp.pattern`, a static the page may reassign. */
    var defaultPattern: PatternRef
    /** The requests issued and not yet completed. */
    ghost var pending: set<Request>

    /** The object invariant: the slots match the pending requests. */
    ghost predicate Valid()
      reads this
    {
      Consistent(registry, pending)
    }

    /** A page with the given head scripts and no request in flight. */
    constructor (headScripts: seq<string>)
      ensures Valid()
      ensures registry == map[] && pending == {}
      ensures scripts == headScripts && loads == []
      ensures defaultPattern == Placeholder
    {
      registry := map[];
      scripts := headScripts;
      loads := [];
      defaultPattern := Placeholder;
      pending := {};
    }

    /**
     * `Y.jsonp(url, c)`. An empty URL is a no-op. Otherwise the argument is
     * normalised, the proxy name is derived from `guid`, the URL is rewritten,
     * the slot `YUI[proxy]` gets the success handler and the rewritten URL is
     * handed to the loader, which appends its script node to the head. The
     * result is what the completion callback needs. `find` stands for the
     * caller's RegExp objects; the guid generator guarantees a fresh proxy.
     */
    method Issue(url: string, c: Value, guid: string, find: Template.Matcher) returns (req: Option<Request>)
      requires Valid()
      requires Template.MatcherValid(find)
      requires url != "" ==> Proxy.ReplaceHyphens(guid) !in registry
      modifies this
      ensures Valid()
      ensures url == "" ==> req.None? && unchanged(this)
      ensures url != "" ==>
        var cfg := Normalise(c, old(defaultPattern));
        var proxy := Proxy.ReplaceHyphens(guid);
        var rewritten := Template.Rewrite(cfg.pattern, url, "YUI." + proxy, find);
        && req == Some(Request(proxy, rewritten, cfg.success, cfg.failure))
        && registry == old(registry)[proxy := cfg.success]
        && loads == old(loads) + [rewritten]
        && scripts == old(scripts) + [rewritten]
        && pending == old(pending) + {req.value}
        && defaultPattern == old(defaultPattern)
      // with the default pattern and a guid without `$`, exactly the first
      // placeholder is replaced by "YUI." + proxy
      ensures url != "" && Normalise(c, old(defaultPattern)).pattern.Placeholder? && '$' !in guid ==>
        var proxy := Proxy.ReplaceHyphens(guid);
        match Template.FindPlaceholder(url)
        case None => req.value.url == url
        case Some(i) => req.value.url == url[..i] + "YUI." + proxy + url[i + |Template.PLACEHOLDER|..]
    {
      if url == "" {
        return None;
      }
      var cfg := Normalise(c, defaultPattern);
      var proxy := Proxy.ReplaceHyphens(guid);
      var repl := "YUI." + proxy;
      var rewritten := Template.Rewrite(cfg.pattern, url, repl, find);
      InsertConsistent(registry, pending, Request(proxy, rewritten, cfg.success, cfg.failure));
      registry := registry[proxy := cfg.success];
      loads := loads + [rewritten];
      scripts := scripts + [rewritten];
      req := Some(Request(proxy, rewritten, cfg.success, cfg.failure));
      pending := pending + {req.value};
      if cfg.pattern.Placeholder? && '$' !in guid {
        assert '$' !in repl by {
          assert forall k :: 4 <= k < |repl| ==> repl[k] == proxy[k - 4];
        }
        Template.ReplaceFirstPlaceholderSpec(url, repl);
      }
    }

    /**
     * The completion callback of `req` (js/jsonp.js:54-60): the slot is
     * deleted, the request's script node is cleaned up, and the failure
     * handler runs with the rewritten URL exactly when the load failed. The
     * success handler is never called here; the remote script calls it.
     */
    method Complete(req: Request, loadOk: bool) returns (calls: seq<Invocation>)
      requires Valid()
      requires req in pending
      modifies this
      ensures Valid()
      ensures registry == old(registry) - {req.proxy}
      ensures scripts == Scripts.RemoveLast(old(scripts), req.url)
      ensures pending == old(pending) - {req}
      ensures loads == old(loads) && defaultPattern == old(defaultPattern)
      ensures calls == if loadOk then [] else [Invocation(req.failure, req.url)]
    {
      RemoveConsistent(registry, pending, req);
      registry := registry - {req.proxy};
      Clean(req.url);
      pending := pending - {req};
      if !loadOk {
        calls := [Invocation(req.failure, req.url)];
      } else {
        calls := [];
      }
    }

    /**
     * `Y.jsonp.clean(url)`: scans the script nodes from the last one back and
     * removes the first whose `src` equals `url`.
     */
    method Clean(url: string)
      modifies this`scripts
      ensures scripts == Scripts.RemoveLast(old(scripts), url)
    {
      var i := |scripts| - 1;
      while i >= 0
        invariant -1 <= i < |scripts|
        invariant scripts == old(scripts)
        invariant forall j :: i < j < |scripts| ==> scripts[j] != url
      {
        if scripts[i] == url {
          scripts := scripts[..i] + scripts[i + 1..];
          break;
        }
        i := i - 1;
      }
    }
  }

  /**
   * A request issued and then completed leaves the slots, the pending set and
   * the script nodes as they were, and has loaded its URL once: the slot lives
   * exactly from the issue to the completion.
   */
  method IssueThenComplete(d: Dispatcher, url: string, c: Value, guid: string,
                           find: Template.Matcher, loadOk: bool)
    returns (req: Request, calls: seq<Invocation>)
    requires d.Valid() && Template.MatcherValid(find)
    requires url != "" && Proxy.ReplaceHyphens(guid) !in d.registry
    modifies d
    ensures d.Valid()
    ensures
      var cfg := Normalise(c, old(d.defaultPattern));
      var proxy := Proxy.ReplaceHyphens(guid);
      req == Request(proxy, Template.Rewrite(cfg.pattern, url, "YUI." + proxy, find), cfg.success, cfg.failure)
    ensures d.registry == old(d.registry) && d.pending == old(d.pending)
    ensures d.scripts == old(d.scripts)
    ensures d.loads == old(d.loads) + [req.url]
    ensures d.defaultPattern == old(d.defaultPattern)
    ensures calls == if loadOk then [] else [Invocation(req.failure, req.url)]
  {
    var issued := d.Issue(url, c, guid, find);
    req := issued.value;
    calls := d.Complete(req, loadOk);
  }
}

/**
 * The plugins an App owns, the platforms among them, and the per-request
 * facade ("Jovo instance") that a platform creates.
 */
module Plugins {
  import opened Wrappers

  /** A raw request: a string-keyed record whose values stay opaque. */
  type RawRequest = map<string, string>

  /** What a facade's `$response` holds; `None` while no stage has set it. */
  type JovoResponse = Option<map<string, string>>

  /**
   * The capability a plugin carries. A platform owns the requests its
   * `isRequestRelated` check accepts; every other plugin (router, handler,
   * output, ...) is an extension with no say in platform selection.
   */
  datatype Role =
    | Platform(isRequestRelated: RawRequest -> bool)
    | Extension

  /** A plugin instance, identified by its object and registered under `name`. */
  class Plugin {
    const name: string
    const role: Role

    constructor (name: string, role: Role)
      ensures this.name == name && this.role == role
    {
      this.name := name;
      this.role := role;
    }

    predicate IsPlatform() {
      role.Platform?
    }

    /** True when this plugin is a platform that claims `request`. */
    predicate Claims(request: RawRequest) {
      role.Platform? && role.isRequestRelated(request)
    }
  }

  /** The per-request facade created by the platform that owns the request. */
  class Jovo {
    const platform: Plugin
    const request: RawRequest
    var response: JovoResponse

    constructor (platform: Plugin, request: RawRequest)
      ensures this.platform == platform && this.request == request
      ensures response == None
    {
      this.platform := platform;
      this.request := request;
      response := None;
    }
  }

  /** `a` occurs in `b` with its order kept (elements of `b` may be skipped). */
  ghost predicate Subsequence(a: seq<Plugin>, b: seq<Plugin>)
    decreases |b|
  {
    if a == [] then true
    else if b == [] then false
    else if a[0] == b[0] then Subsequence(a[1..], b[1..])
    else Subsequence(a, b[1..])
  }

  /**
   * The `platforms` view: the plugins, in plugin-map order, that are
   * platforms. The result keeps the order of `plugins`, holds every platform
   * as often as `plugins` does, and holds nothing else.
   */
  function Platforms(plugins: seq<Plugin>): (r: seq<Plugin>)
    ensures Subsequence(r, plugins)
    ensures forall p :: p in r ==> p in plugins && p.IsPlatform()
    ensures forall p :: p in plugins ==> multiset(r)[p] == (if p.IsPlatform() then multiset(plugins)[p] else 0)
  {
    if plugins == [] then []
    else
      var rest := Platforms(plugins[1..]);
      assert plugins == [plugins[0]] + plugins[1..];
      if plugins[0].IsPlatform() then [plugins[0]] + rest else rest
  }

  /**
   * `Array.prototype.find` with `isRequestRelated`: the first plugin of
   * `candidates` that claims `request`, or `None` when none does.
   */
  function FindRelated(candidates: seq<Plugin>, request: RawRequest): (found: Option<Plugin>)
    ensures found.None? <==> forall i :: 0 <= i < |candidates| ==> !candidates[i].Claims(request)
    ensures found.Some? ==>
      exists k :: 0 <= k < |candidates| && candidates[k] == found.value && found.value.Claims(request) &&
        forall j :: 0 <= j < k ==> !candidates[j].Claims(request)
  {
    if candidates == [] then None
    else if candidates[0].Claims(request) then Some(candidates[0])
    else
      var found := FindRelated(candidates[1..], request);
      assert forall i :: 1 <= i < |candidates| ==> candidates[i] == candidates[1..][i - 1];
      found
  }

  /**
   * Searching the `platforms` view finds the same plugin as searching the
   * whole plugin list: plugins that are not platforms never claim a request.
   */
  lemma {:induction false} FindRelatedOverPlatforms(plugins: seq<Plugin>, request: RawRequest)
    ensures FindRelated(Platforms(plugins), request) == FindRelated(plugins, request)
  {
    if plugins != [] {
      FindRelatedOverPlatforms(plugins[1..], request);
      if plugins[0].IsPlatform() {
        assert Platforms(plugins) == [plugins[0]] + Platforms(plugins[1..]);
      }
    }
  }

  /** When some plugin claims the request, a platform is found for it. */
  lemma SomeClaimFound(plugins: seq<Plugin>, request: RawRequest)
    requires exists p :: p in plugins && p.Claims(request)
    ensures FindRelated(Platforms(plugins), request).Some?
  {
    var p :| p in plugins && p.Claims(request);
    FindRelatedOverPlatforms(plugins, request);
    var k :| 0 <= k < |plugins| && plugins[k] == p;
  }

  /**
   * The search stops at the first platform that claims the request: the
   * candidates after it are never consulted, so appending more changes nothing.
   */
  lemma {:induction false} FindRelatedIgnoresLater(candidates: seq<Plugin>, later: seq<Plugin>, request: RawRequest)
    requires FindRelated(candidates, request).Some?
    ensures FindRelated(candidates + later, request) == FindRelated(candidates, request)
  {
    assert candidates != [];
    assert (candidates + later)[0] == candidates[0];
    if !candidates[0].Claims(request) {
      assert (candidates + later)[1..] == candidates[1..] + later;
      FindRelatedIgnoresLater(candidates[1..], later, request);
    }
  }

  /** Platforms of a concatenation are the concatenation of the platforms. */
  lemma {:induction false} PlatformsAppend(a: seq<Plugin>, b: seq<Plugin>)
    ensures Platforms(a + b) == Platforms(a) + Platforms(b)
  {
    if a == [] {
      assert a + b == b;
    } else {
      assert (a + b)[0] == a[0];
      assert (a + b)[1..] == a[1..] + b;
      PlatformsAppend(a[1..], b);
    }
  }
}

/**
 * Component metadata and the registry written by `App.useComponents`.
 *
 * `lodash.merge` is modelled on the two fields a component's metadata
 * carries: the `target` constructor, which a later defined value replaces,
 * and the `options` record, merged key by key with later sources winning
 * and absent keys keeping the earlier value.
 */
module Components {
  import opened Wrappers

  /** A component class (constructor function), identified by its object; `name` is its JS name. */
  class ComponentClass {
    const name: string

    constructor (name: string)
      ensures this.name == name
    {
      this.name := name;
    }
  }

  /** An option value; nested option objects are not modelled. */
  type Setting = string

  datatype ComponentMetadata = ComponentMetadata(target: Option<ComponentClass>, options: map<string, Setting>)

  /** A `useComponents` argument: a bare constructor or a `{component, options}` declaration. */
  datatype Declaration =
    | Bare(component: ComponentClass)
    | Declared(component: ComponentClass, options: map<string, Setting>)

  /** The process-wide metadata catalog, looked up by component class. */
  type Catalog = map<ComponentClass, ComponentMetadata>

  /** The registry: component name to merged metadata. */
  type Registry = map<string, ComponentMetadata>

  /** A fresh object with no own fields (`Object.create(ComponentMetadata.prototype)`). */
  const Blank := ComponentMetadata(None, map[])

  /** `_merge(a, b)`: `b`'s defined fields win, `a`'s fields that `b` lacks are kept. */
  function Merge(a: ComponentMetadata, b: ComponentMetadata): (m: ComponentMetadata)
    ensures m.target == if b.target.Some? then b.target else a.target
    ensures m.options.Keys == a.options.Keys + b.options.Keys
    ensures forall k :: k in b.options ==> m.options[k] == b.options[k]
    ensures forall k :: k in a.options && k !in b.options ==> m.options[k] == a.options[k]
  {
    ComponentMetadata(if b.target.Some? then b.target else a.target, a.options + b.options)
  }

  /** The key under which a declaration is registered: the constructor's name. */
  function NameOf(d: Declaration): string {
    d.component.name
  }

  /** `new ComponentMetadata(component)` or `new ComponentMetadata(component.component, component.options)`. */
  function DeclaredMetadata(d: Declaration): ComponentMetadata {
    match d
    case Bare(c) => ComponentMetadata(Some(c), map[])
    case Declared(c, options) => ComponentMetadata(Some(c), options)
  }

  /** The catalog's metadata for a class; an absent entry merges as nothing. */
  function Related(catalog: Catalog, c: ComponentClass): ComponentMetadata {
    if c in catalog then catalog[c] else Blank
  }

  /** The entry written for one declaration: blank, then stored metadata, then the new metadata. */
  function EntryFor(catalog: Catalog, d: Declaration): ComponentMetadata {
    Merge(Merge(Blank, Related(catalog, d.component)), DeclaredMetadata(d))
  }

  /** The registry after processing `decls` left to right, each writing its own entry. */
  function Registered(registry: Registry, catalog: Catalog, decls: seq<Declaration>): Registry
    decreases |decls|
  {
    if decls == [] then registry
    else
      var last := decls[|decls| - 1];
      Registered(registry, catalog, decls[..|decls| - 1])[NameOf(last) := EntryFor(catalog, last)]
  }

  /** The names `decls` registers. */
  function DeclaredNames(decls: seq<Declaration>): (names: set<string>)
    ensures forall i :: 0 <= i < |decls| ==> NameOf(decls[i]) in names
    ensures forall n :: n in names ==> exists i :: 0 <= i < |decls| && NameOf(decls[i]) == n
  {
    set i | 0 <= i < |decls| :: NameOf(decls[i])
  }

  // ---------------------------------------------------------------------
  // Merge

  /** A blank start changes nothing: merging into an empty object copies the source. */
  lemma MergeBlank(m: ComponentMetadata)
    ensures Merge(Blank, m) == m
  {
    assert map[] + m.options == m.options;
  }

  /** Merging metadata with itself gives it back. */
  lemma MergeIdempotent(m: ComponentMetadata)
    ensures Merge(m, m) == m
  {
    assert m.options + m.options == m.options;
  }

  /** Merging in sequence is merging once with the combined source. */
  lemma MergeAssociative(a: ComponentMetadata, b: ComponentMetadata, c: ComponentMetadata)
    ensures Merge(Merge(a, b), c) == Merge(a, Merge(b, c))
  {
    assert (a.options + b.options) + c.options == a.options + (b.options + c.options);
  }

  // ---------------------------------------------------------------------
  // The entry one declaration writes

  /**
   * The written entry targets the declared class; its options are the
   * stored options overridden by the call-site options, which only the
   * declaration form supplies.
   */
  lemma EntryForContents(catalog: Catalog, d: Declaration)
    ensures EntryFor(catalog, d).target == Some(d.component)
    ensures d.Bare? ==> EntryFor(catalog, d).options == Related(catalog, d.component).options
    ensures d.Declared? ==> EntryFor(catalog, d).options == Related(catalog, d.component).options + d.options
  {
    MergeBlank(Related(catalog, d.component));
    assert Related(catalog, d.component).options + map[] == Related(catalog, d.component).options;
  }

  /** A stored option the call site does not set survives; a call-site option wins over the stored one. */
  lemma EntryForPrecedence(catalog: Catalog, d: Declaration, key: string)
    ensures d.Declared? && key in d.options ==> EntryFor(catalog, d).options[key] == d.options[key]
    ensures key in Related(catalog, d.component).options && !(d.Declared? && key in d.options) ==>
      EntryFor(catalog, d).options[key] == Related(catalog, d.component).options[key]
  {
    EntryForContents(catalog, d);
  }

  // ---------------------------------------------------------------------
  // The registry after a call

  /** Every declared name gets an entry; no other name is added. */
  lemma {:induction false} RegisteredKeys(registry: Registry, catalog: Catalog, decls: seq<Declaration>)
    ensures Registered(registry, catalog, decls).Keys == registry.Keys + DeclaredNames(decls)
    decreases |decls|
  {
    if decls != [] {
      var init := decls[..|decls| - 1];
      RegisteredKeys(registry, catalog, init);
      assert forall i :: 0 <= i < |init| ==> init[i] == decls[i];
      assert DeclaredNames(decls) == DeclaredNames(init) + {NameOf(decls[|decls| - 1])};
    }
  }

  /** Entries under names no declaration carries are left exactly as they were. */
  lemma {:induction false} RegisteredUntouched(registry: Registry, catalog: Catalog, decls: seq<Declaration>, name: string)
    requires forall i :: 0 <= i < |decls| ==> NameOf(decls[i]) != name
    ensures name in Registered(registry, catalog, decls) <==> name in registry
    ensures name in registry ==> Registered(registry, catalog, decls)[name] == registry[name]
    decreases |decls|
  {
    if decls != [] {
      RegisteredUntouched(registry, catalog, decls[..|decls| - 1], name);
    }
  }

  /**
   * A declared name ends up with the entry of the LAST declaration carrying
   * it: later duplicates in the same call win, and the earlier entry under
   * that name is not consulted.
   */
  lemma {:induction false} RegisteredLastWins(registry: Registry, catalog: Catalog, decls: seq<Declaration>, k: nat)
    requires k < |decls|
    requires forall j :: k < j < |decls| ==> NameOf(decls[j]) != NameOf(decls[k])
    ensures NameOf(decls[k]) in Registered(registry, catalog, decls)
    ensures Registered(registry, catalog, decls)[NameOf(decls[k])] == EntryFor(catalog, decls[k])
    decreases |decls|
  {
    if k < |decls| - 1 {
      var init := decls[..|decls| - 1];
      assert init[k] == decls[k];
      RegisteredLastWins(registry, catalog, init, k);
    }
  }

  /**
   * The previous registry only matters for names nobody declares: two
   * registries that agree elsewhere agree after the same call.
   */
  lemma {:induction false} RegisteredIgnoresPrevious(r1: Registry, r2: Registry, catalog: Catalog, decls: seq<Declaration>, name: string)
    requires name in DeclaredNames(decls)
    ensures name in Registered(r1, catalog, decls) && name in Registered(r2, catalog, decls)
    ensures Registered(r1, catalog, decls)[name] == Registered(r2, catalog, decls)[name]
    decreases |decls|
  {
    var init := decls[..|decls| - 1];
    var last := decls[|decls| - 1];
    if NameOf(last) != name {
      assert forall i :: 0 <= i < |init| ==> init[i] == decls[i];
      var i :| 0 <= i < |decls| && NameOf(decls[i]) == name;
      assert NameOf(init[i]) == name;
      RegisteredIgnoresPrevious(r1, r2, catalog, init, name);
    }
  }

  /**
   * Registering the same class again in a later call replaces its entry
   * with one built from the catalog and the new declaration alone: options
   * given at an earlier call do not accumulate.
   */
  lemma RegisterAgainReplaces(registry: Registry, catalog: Catalog, first: Declaration, second: Declaration)
    requires first.component == second.component
    ensures Registered(Registered(registry, catalog, [first]), catalog, [second])[NameOf(second)] ==
            Registered(registry, catalog, [second])[NameOf(second)]
    ensures Registered(Registered(registry, catalog, [first]), catalog, [second])[NameOf(second)] ==
            EntryFor(catalog, second)
  {
    assert [first][..0] == [] && [second][..0] == [];
  }
}

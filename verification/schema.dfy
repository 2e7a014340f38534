/** The cached bootstrap plan ("schema"): the class list it was built for and, per class,
    whether to construct it, whether to boot it and which bindings it declares. */
module Schemas {
  import opened Wrappers
  import opened OrderedMaps
  import opened Bootloaders
  import opened Containers

  /** The `bindings` and `singletons` keys of an entry (present together or not at all). */
  datatype Capabilities = Capabilities(
    bindings: OrderedMap<Alias, Resolver>,
    singletons: OrderedMap<Alias, Resolver>)

  /** One value of `$schema['bootloaders']`. */
  datatype Entry = Entry(init: bool, boot: bool, capabilities: Option<Capabilities>)

  datatype Schema = Schema(snapshot: seq<Class>, bootloaders: OrderedMap<Class, Entry>)

  /** The `bind` calls for a bindings map, in map order. */
  function BindingEvents(b: OrderedMap<Alias, Resolver>): seq<Event> {
    if b == [] then [] else BindingEvents(b[..|b| - 1]) + [Bound(b[|b| - 1].0, b[|b| - 1].1)]
  }

  /** The `bindSingleton` calls for a singletons map, in map order. */
  function SingletonEvents(b: OrderedMap<Alias, Resolver>): seq<Event> {
    if b == [] then [] else SingletonEvents(b[..|b| - 1]) + [BoundSingleton(b[|b| - 1].0, b[|b| - 1].1)]
  }

  /** One `bind` call per pair of the map, aliasing the key to the value, in map order. */
  lemma {:induction false} BindingEventsSpec(b: OrderedMap<Alias, Resolver>)
    ensures |BindingEvents(b)| == |b|
    ensures forall i :: 0 <= i < |b| ==> BindingEvents(b)[i] == Bound(b[i].0, b[i].1)
  {
    if b != [] {
      BindingEventsSpec(b[..|b| - 1]);
    }
  }

  /** One `bindSingleton` call per pair of the map, in map order. */
  lemma {:induction false} SingletonEventsSpec(b: OrderedMap<Alias, Resolver>)
    ensures |SingletonEvents(b)| == |b|
    ensures forall i :: 0 <= i < |b| ==> SingletonEvents(b)[i] == BoundSingleton(b[i].0, b[i].1)
  {
    if b != [] {
      SingletonEventsSpec(b[..|b| - 1]);
    }
  }

  /** What `initBindings` does to the container: every binding, then every singleton. */
  function Registrations(caps: Capabilities): seq<Event> {
    BindingEvents(caps.bindings) + SingletonEvents(caps.singletons)
  }

  /** `initBindings` makes one call per binding and singleton and nothing but `bind` and
      `bindSingleton` calls. */
  lemma RegistrationsSpec(caps: Capabilities)
    ensures |Registrations(caps)| == |caps.bindings| + |caps.singletons|
    ensures forall i :: 0 <= i < |Registrations(caps)| ==>
      Registrations(caps)[i].Bound? || Registrations(caps)[i].BoundSingleton?
  {
    BindingEventsSpec(caps.bindings);
    SingletonEventsSpec(caps.singletons);
  }

  /** The registrations an entry carries, if it has the `bindings` key. */
  function CapabilityEvents(e: Entry): seq<Event> {
    if e.capabilities.Some? then Registrations(e.capabilities.value) else []
  }
}

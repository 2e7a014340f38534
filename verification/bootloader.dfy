/** The abstract `Bootloader` class: a module that declares container bindings through
    class constants and says through `BOOT` whether its `boot` hook is to be run. */
module Bootloaders {
  import opened Wrappers
  import opened OrderedMaps

  /** A container alias (an interface or service name). */
  type Alias = string

  /** What an alias resolves to: a class name or a factory descriptor. */
  type Resolver = string

  /** The constants `BOOT`, `BINDINGS` and `SINGLETONS` as seen through `static::`
      on a concrete bootloader class. */
  datatype Bootloader = Bootloader(
    boot: bool,
    bindings: OrderedMap<Alias, Resolver>,
    singletons: OrderedMap<Alias, Resolver>)

  /** The constants declared by the abstract class itself. */
  const Default: Bootloader := Bootloader(false, [], [])

  /** A subclass that overrides some of the constants; `None` means inherited.
      Because the accessors read `static::`, an override is what they return. */
  function Subclass(
    boot: Option<bool>,
    bindings: Option<OrderedMap<Alias, Resolver>>,
    singletons: Option<OrderedMap<Alias, Resolver>>): (b: Bootloader)
    ensures boot.None? ==> !b.boot
    ensures boot.Some? ==> b.boot == boot.value
    ensures DefineBindings(b) == if bindings.Some? then bindings.value else []
    ensures DefineSingletons(b) == if singletons.Some? then singletons.value else []
  {
    Bootloader(
      if boot.Some? then boot.value else Default.boot,
      if bindings.Some? then bindings.value else Default.bindings,
      if singletons.Some? then singletons.value else Default.singletons)
  }

  /** `defineBindings()`: the class's `BINDINGS`. */
  function DefineBindings(b: Bootloader): (r: OrderedMap<Alias, Resolver>)
    ensures r == b.bindings
  {
    b.bindings
  }

  /** `defineSingletons()`: the class's `SINGLETONS`. */
  function DefineSingletons(b: Bootloader): (r: OrderedMap<Alias, Resolver>)
    ensures r == b.singletons
  {
    b.singletons
  }
}

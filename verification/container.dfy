/** The dependency-injection container as the bootstrap engine sees it: an opaque
    collaborator whose calls are recorded, in order, as events. */
module Containers {
  import opened Wrappers
  import opened Bootloaders

  /** A class name handed to the engine. */
  type Class = string

  /** One call made on the container. */
  datatype Event =
    | Got(cls: Class)                                      // get($class)
    | Bound(alias: Alias, resolver: Resolver)              // bind($alias, $resolver)
    | BoundSingleton(alias: Alias, resolver: Resolver)     // bindSingleton($alias, $resolver)
    | Booted(cls: Class)                                   // boot() invoked with resolved arguments

  /** A thrown error: the message and code that `BootloadException` keeps. */
  datatype Error = Error(message: string, code: int)

  /** What `get` constructs: an object that implements `BootloaderInterface`
      (its constants are then known) or any other object. */
  datatype Instance = Plain | Configuring(loader: Bootloader)

  /** The container's behaviour, which the engine cannot see: what `get` yields for a
      class, and whether invoking the `boot` hook of a class (resolving its arguments
      included) throws; both may depend on every call made on the container before. */
  datatype World = World(
    objects: (seq<Event>, Class) -> Result<Instance, Error>,
    boots: (seq<Event>, Class) -> Option<Error>)

  class Container {
    const world: World
    var trace: seq<Event>

    constructor (world: World)
      ensures this.world == world && trace == []
    {
      this.world := world;
      trace := [];
    }

    method Get(cls: Class) returns (r: Result<Instance, Error>)
      modifies this
      ensures r == world.objects(old(trace), cls)
      ensures trace == old(trace) + [Got(cls)]
    {
      r := world.objects(trace, cls);
      trace := trace + [Got(cls)];
    }

    method Bind(alias: Alias, resolver: Resolver)
      modifies this
      ensures trace == old(trace) + [Bound(alias, resolver)]
    {
      trace := trace + [Bound(alias, resolver)];
    }

    method BindSingleton(alias: Alias, resolver: Resolver)
      modifies this
      ensures trace == old(trace) + [BoundSingleton(alias, resolver)]
    {
      trace := trace + [BoundSingleton(alias, resolver)];
    }

    /** Resolves the arguments of `cls`'s boot hook and invokes it. */
    method Boot(cls: Class) returns (failure: Option<Error>)
      modifies this
      ensures failure == world.boots(old(trace), cls)
      ensures trace == old(trace) + [Booted(cls)]
    {
      failure := world.boots(trace, cls);
      trace := trace + [Booted(cls)];
    }
  }
}

/** `BootloadManager`: bootloads a list of classes against the container, through a
    schema cached in the memory store, and remembers every class it processed. */
module BootloadManagers {
  import opened Wrappers
  import opened Sequences
  import opened OrderedMaps
  import opened Bootloaders
  import opened Containers
  import opened Schemas
  import opened Memories
  import opened Plans

  class BootloadManager {
    /** Every class bootloaded so far, across calls, in processing order. */
    var classes: seq<Class>
    const container: Container
    const memory: Memory

    constructor (container: Container, memory: Memory)
      ensures classes == [] && this.container == container && this.memory == memory
    {
      classes := [];
      this.container := container;
      this.memory := memory;
    }

    /** `getClasses()`. */
    method GetClasses() returns (r: seq<Class>)
      ensures r == classes
    {
      r := classes;
    }

    /** `bootload($classes, $memory)`. */
    method Bootload(cs: seq<Class>, section: Option<string>) returns (status: Status)
      modifies this, container, memory
      ensures var o := Plans.Bootload(cs, section, old(memory.sections), old(classes), old(container.trace), container.world);
        && classes == o.processed
        && container.trace == o.events
        && memory.log == old(memory.log) + o.accesses
        && memory.sections == o.stored
        && status == o.status
    {
      var schema: Option<Schema> := None;
      if Enabled(section) {
        schema := memory.LoadData(section.value);
      }
      if schema.None? || schema.value.snapshot != cs {
        var generated := GenerateSchema(cs);
        if generated.Failure? {
          return BootloadException(generated.error.message, generated.error.code);
        }
        if Enabled(section) {
          memory.SaveData(section.value, generated.value);
        }
        return Ok;
      }
      var failure := BootSchema(schema.value);
      status := if failure.Some? then BootloadException(failure.value.message, failure.value.code) else Ok;
    }

    /** `bootSchema($container, $schema)`: replays the entries in insertion order. */
    method BootSchema(schema: Schema) returns (failure: Option<Error>)
      modifies this, container
      ensures var R := ReplayFrom(Replay(old(classes), old(container.trace), None), schema.bootloaders, container.world);
        classes == R.processed && container.trace == R.events && failure == R.failure
    {
      var es := schema.bootloaders;
      ghost var R := ReplayFrom(Replay(classes, container.trace, None), es, container.world);
      var i := 0;
      while i < |es|
        invariant 0 <= i <= |es|
        invariant ReplayFrom(Replay(classes, container.trace, None), es[i..], container.world) == R
      {
        var (cls, options) := es[i];
        ghost var before := Replay(classes, container.trace, None);
        assert es[i..][0] == (cls, options) && es[i..][1..] == es[i + 1..];
        ghost var after := ReplayStep(before, cls, options, container.world);
        ReplayStepEffects(before, cls, options, container.world, after);
        classes := classes + [cls];
        if options.capabilities.Some? {
          InitBindings(options.capabilities.value);
        }
        assert container.trace == before.events + CapabilityEvents(options);
        if options.init {
          var got := container.Get(cls);
          if got.Failure? {
            assert after == Replay(classes, container.trace, Some(got.error));
            return Some(got.error);
          }
          if options.boot {
            failure := container.Boot(cls);
            if failure.Some? {
              assert after == Replay(classes, container.trace, failure);
              return;
            }
          }
        }
        assert after == Replay(classes, container.trace, None);
        i := i + 1;
      }
      failure := None;
    }

    /** `generateSchema($classes, $container)`: constructs, registers and boots every
        class in order while building the schema that replays it. */
    method GenerateSchema(cs: seq<Class>) returns (r: Result<Schema, Error>)
      modifies this, container
      ensures var G := GenerateFrom(Generation(old(classes), old(container.trace), [], None), cs, container.world);
        && classes == G.processed && container.trace == G.events
        && r == if G.failure.None? then Success(Schema(cs, G.entries)) else Failure(G.failure.value)
    {
      var entries: OrderedMap<Class, Entry> := [];
      ghost var G := GenerateFrom(Generation(classes, container.trace, [], None), cs, container.world);
      var i := 0;
      while i < |cs|
        invariant 0 <= i <= |cs|
        invariant GenerateFrom(Generation(classes, container.trace, entries, None), cs[i..], container.world) == G
      {
        var cls := cs[i];
        ghost var before := Generation(classes, container.trace, entries, None);
        assert cs[i..][0] == cls && cs[i..][1..] == cs[i + 1..];
        ghost var after := GenerateStep(before, cls, container.world);
        GenerateStepEffects(before, cls, container.world, after);
        classes := classes + [cls];
        var entry := Entry(true, false, None);
        var got := container.Get(cls);
        if got.Failure? {
          assert after == Generation(classes, container.trace, entries, Some(got.error));
          return Failure(got.error);
        }
        var bootloader := got.value;
        if bootloader.Configuring? {
          var caps := Capabilities(DefineBindings(bootloader.loader), DefineSingletons(bootloader.loader));
          entry := Entry(bootloader.loader.boot, bootloader.loader.boot, Some(caps));
          InitBindings(caps);
        } else {
          entry := entry.(init := true);
        }
        if entry.boot {
          var failure := container.Boot(cls);
          if failure.Some? {
            assert after == Generation(classes, container.trace, entries, failure);
            return Failure(failure.value);
          }
        }
        entries := Put(entries, cls, entry);
        assert after == Generation(classes, container.trace, entries, None);
        i := i + 1;
      }
      r := Success(Schema(cs, entries));
    }

    /** `initBindings($container, $bootSchema)`. */
    method InitBindings(caps: Capabilities)
      modifies container
      ensures container.trace == old(container.trace) + Registrations(caps)
    {
      var i := 0;
      while i < |caps.bindings|
        invariant 0 <= i <= |caps.bindings|
        invariant container.trace == old(container.trace) + BindingEvents(caps.bindings[..i])
      {
        assert caps.bindings[..i + 1][..i] == caps.bindings[..i];
        assert BindingEvents(caps.bindings[..i + 1]) ==
          BindingEvents(caps.bindings[..i]) + [Bound(caps.bindings[i].0, caps.bindings[i].1)];
        AppendAssociative(old(container.trace), BindingEvents(caps.bindings[..i]),
          [Bound(caps.bindings[i].0, caps.bindings[i].1)]);
        container.Bind(caps.bindings[i].0, caps.bindings[i].1);
        i := i + 1;
      }
      assert caps.bindings[..i] == caps.bindings;
      var j := 0;
      while j < |caps.singletons|
        invariant 0 <= j <= |caps.singletons|
        invariant container.trace ==
          old(container.trace) + BindingEvents(caps.bindings) + SingletonEvents(caps.singletons[..j])
      {
        assert caps.singletons[..j + 1][..j] == caps.singletons[..j];
        assert SingletonEvents(caps.singletons[..j + 1]) ==
          SingletonEvents(caps.singletons[..j]) + [BoundSingleton(caps.singletons[j].0, caps.singletons[j].1)];
        AppendAssociative(old(container.trace) + BindingEvents(caps.bindings),
          SingletonEvents(caps.singletons[..j]), [BoundSingleton(caps.singletons[j].0, caps.singletons[j].1)]);
        container.BindSingleton(caps.singletons[j].0, caps.singletons[j].1);
        j := j + 1;
      }
      assert caps.singletons[..j] == caps.singletons;
    }
  }
}

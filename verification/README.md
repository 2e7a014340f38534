# BootloadManager in Dafny

This project models the bootstrap engine of the Spiral core: `BootloadManager` and the
abstract `Bootloader` it inspects.

`bootload($classes, $memory)` decides between two paths:

- It replays a schema cached in a memory section (`bootSchema`) when the section is
  non-empty, a schema is stored there, and that schema's `snapshot` is the requested
  class list.
- Otherwise it generates a fresh schema (`generateSchema`). Generation constructs every
  class through the container, registers the bindings and singletons a bootloader
  declares (`initBindings`) and runs the `boot` hook of bootloaders whose `BOOT` is set.
  It then saves the schema when a section was given.

Both paths append every processed class to `$classes` (`getClasses`). An error raised
while generating or replaying is rethrown as `BootloadException` with the original
message and code. The store calls `loadData` and `saveData` sit outside both `try`
blocks.

## Structure

- `wrappers.dfy`, `sequences.dfy`: `Option`/`Result` and small sequence facts.
- `ordered_maps.dfy`: PHP arrays with string keys, as insertion-ordered pair lists.
  Assigning an existing key replaces its value in place.
- `bootloader.dfy`: the `Bootloader` constants `BOOT`, `BINDINGS` and `SINGLETONS`, and
  the accessors `defineBindings`/`defineSingletons`. A subclass overrides constants and
  the accessors read them through `static::`.
- `container.dfy`: the container as a class that records every call made on it
  (`get`, `bind`, `bindSingleton`, `boot`) in a `trace`. What `get` returns and whether a
  boot throws come from a `World`: two functions of the call history and the class.
  The container's own logic is not visible to the engine.
- `memory.dfy`: the memory store as a class holding the saved schemas and a log of
  `loadData`/`saveData` calls.
- `schema.dfy`: schema entries (`init`, `boot`, optional `bindings`/`singletons`) and
  the registration calls `initBindings` makes for them.
- `plans.dfy`: the engine as functions:
  - `GenerateFrom` folds `GenerateStep` over the input classes;
  - `ReplayFrom` folds `ReplayStep` over the cached entries;
  - `Bootload` captures the cache decision.

  Each run stops at the first error. Lemmas state what each run appends, in which order
  it calls the container, and what it stores.
- `bootload_manager.dfy`: the `BootloadManager` class. Its `$classes` field, its loops
  and its container and store calls are proved equal to the functions of `plans.dfy`.
- `plan_properties.dfy`: properties that relate several runs:
  - replaying a generated schema repeats generation's boots and registrations;
  - a bootloader that overrides nothing is only constructed;
  - a second `bootload` with the same list reuses the cache.

  In any container, when generation and the replay of its schema both succeed on a
  list without repeated classes, the replay boots and registers what the schema's
  entries say, exactly as generation did. Further results
  hold in a "history-independent" container, one whose `get` and `boot` results do not
  depend on earlier calls.

## Model

| member | source | states |
|---|---|---|
| Bootloaders.DefineBindings | src/Bootloaders/Bootloader.php:39-42 | `defineBindings()` returns the `BINDINGS` constant of the concrete class it is called on. `Subclass` states what that is for an override and for the default. |
| Bootloaders.DefineSingletons | src/Bootloaders/Bootloader.php:47-50 | `defineSingletons()` returns the `SINGLETONS` constant of the concrete class it is called on. |
| Bootloaders.Subclass | src/Bootloaders/Bootloader.php:28-50 | A bootloader that does not override `BOOT` is not bootable. `defineBindings`/`defineSingletons` return exactly the subclass's `BINDINGS`/`SINGLETONS`, or the empty defaults when not overridden. |
| OrderedMaps.Put | src/BootloadManager.php:174 | Assigning `$schema['bootloaders'][$class]` adds at most one pair. |
| OrderedMaps.PutSpec | src/BootloadManager.php:174 | Assigning `$schema['bootloaders'][$class]` keeps existing keys in place and appends a new key at the end. The class then maps to the new entry and every other class keeps its entry. |
| Containers.Container.Get | src/BootloadManager.php:150 | `get` returns what the container yields for the class given the calls so far, and is recorded as one call. |
| Containers.Container.Bind | src/BootloadManager.php:189 | `bind` records one non-shared binding. |
| Containers.Container.BindSingleton | src/BootloadManager.php:193 | `bindSingleton` records one singleton binding. |
| Containers.Container.Boot | src/BootloadManager.php:170-171 | Invoking `boot` with resolved arguments is recorded as one call. It fails exactly when the container's boot behaviour throws for that class and history. |
| Memories.Memory.LoadData | src/BootloadManager.php:71 | `loadData` leaves the store unchanged, is logged, and returns the saved schema exactly when one is stored under the section. |
| Memories.Memory.SaveData | src/BootloadManager.php:84 | `saveData` stores the schema under the section, changes no other section and is logged. |
| Schemas.BindingEventsSpec | src/BootloadManager.php:188-190 | One `bind` per binding, aliasing key to resolver, in map order. |
| Schemas.SingletonEventsSpec | src/BootloadManager.php:192-194 | One `bindSingleton` per singleton, in map order. |
| Schemas.RegistrationsSpec | src/BootloadManager.php:186-195 | `initBindings` makes one call per binding and per singleton, and every call is a `bind` or `bindSingleton`. |
| Plans.EntryOf | src/BootloadManager.php:149-166 | A generated entry carries bindings exactly when the object `get` returned is a bootloader. An entry without bindings is constructed and not booted. One with bindings has `init == boot`, so `boot` implies `init`. |
| Plans.GenerateStep | src/BootloadManager.php:146-175 | One generation iteration appends its class to the processed classes whatever happens. It can succeed only if `get` succeeded for that class. |
| Plans.GenerateFrom | src/BootloadManager.php:146-175 | Generation over a list processes at most the list's classes and, when it does not fail, all of them. A run that has already failed does nothing more. |
| Plans.GenerateStepEffects | src/BootloadManager.php:146-174 | One generation step processes the class first, then calls `get`. On a bootloader it then registers bindings, then singletons, then boots when flagged. A `get` or boot error stops the step with that error and leaves the entries unchanged. Otherwise the entry is stored under the class. |
| Plans.GenerateStepRecords | src/BootloadManager.php:149-166 | After a successful step, a plain object's entry is `{init: true, boot: false}` with no bindings. A bootloader's entry has `boot == BOOT`, `init == boot` and its bindings and singletons. |
| Plans.ReplayStep | src/BootloadManager.php:109-125 | One replay iteration appends its class to the processed classes whatever happens. An entry without `init` never fails, because nothing is fetched or booted. |
| Plans.ReplayFrom | src/BootloadManager.php:109-125 | Replay over a list of entries processes at most one class per entry and, when it does not fail, one per entry. A run that has already failed does nothing more. |
| Plans.ReplayStepEffects | src/BootloadManager.php:109-124 | One replay step processes the class and registers the entry's bindings before anything else. It calls `get` only if `init` is set and boots only if both `init` and `boot` are set. A `get` or boot error stops the run with that error. |
| Plans.GenerateGrows | src/BootloadManager.php:146-147 | Generation only appends to the processed classes and to the container calls. |
| Plans.GenerateProcesses | src/BootloadManager.php:146-147 | A generation run that does not fail appends every input class in input order, duplicates included. |
| Plans.GenerateStops | src/BootloadManager.php:146-172 | A failing generation run stops at some position `n`. The run over the first `n - 1` classes succeeded. The whole run is that run followed by the failing step for class `n`, and the processed classes are exactly the first `n` classes. |
| Plans.ReplayGrows | src/BootloadManager.php:109-110 | Replay only appends to the processed classes and to the container calls. |
| Plans.ReplayProcesses | src/BootloadManager.php:109-125 | A successful replay run appends all the schema's keys in insertion order. A failing run stops at some entry `n`: replay of the first `n - 1` entries succeeded, the whole run is that run followed by the failing step for entry `n`, and exactly the first `n` keys are processed. |
| Plans.GeneratedKeys | src/BootloadManager.php:174 | The generated schema's keys are the input classes in order of first occurrence. |
| Plans.GeneratedEntriesShaped | src/BootloadManager.php:149-174 | Every entry of a generated schema has the generated shape described for `EntryOf`. |
| Plans.Enabled | src/BootloadManager.php:70 | `!empty($memory)` holds only for a non-empty section name. Every name of two or more characters passes, and a one-character name passes exactly when it is not `"0"`. |
| Plans.Wrap | src/BootloadManager.php:79-80 | A caught error becomes `BootloadException` with the same message and code, and no error means a normal return. |
| Plans.Bootload | src/BootloadManager.php:68-96 | Replay runs if and only if the section is non-empty, a schema is stored and its snapshot equals the list; otherwise generation runs, and never both. With no section the store is never touched. With a section it is read first and written only after successful generation, with a snapshot equal to the list. The saved bootloaders are exactly the generated entries. Processed classes and container calls are only appended, and each equals what exactly one of the two runs produced. On failure that run stops at the failing class as `GenerateStops`/`ReplayProcesses` state, and the exception carries its message and code. |
| PlanProperties.RegistrationsOnlyRegister | src/BootloadManager.php:186-195 | A sequence made only of registrations boots nothing, and its registrations are the whole sequence. |
| PlanProperties.GenerateStepActs | src/BootloadManager.php:149-174 | In any container, a successful generation iteration stores the entry built from what `get` returned under its class. It boots exactly when that entry says so and registers exactly the entry's bindings. |
| PlanProperties.GenerateStepCalls | src/BootloadManager.php:150-172 | In a history-independent container, a successful step means the class constructs, and boots whenever its entry asks. The step boots the class exactly when its entry says so and registers exactly the entry's bindings. |
| PlanProperties.GenerationCalls | src/BootloadManager.php:146-175 | In a history-independent container, a successful generation meets only classes that construct and boot without error. It boots exactly the classes whose entries ask for it and registers exactly the entries' bindings, in input order. |
| PlanProperties.GenerationPlans | src/BootloadManager.php:149-174 | In a history-independent container, every generated entry is the one its class calls for. |
| PlanProperties.ReplayStepActs | src/BootloadManager.php:109-124 | In any container, a successful replay of a generated-shape entry boots exactly when the entry says so and registers exactly its bindings. |
| PlanProperties.ReplayStepCalls | src/BootloadManager.php:109-124 | In a history-independent container, replaying the planned entry of a sound class does not fail, boots exactly when the entry asks, and registers exactly its bindings. A sound class is one whose construction succeeds and whose boot succeeds when its entry asks for one. |
| PlanProperties.ReplayCalls | src/BootloadManager.php:109-125 | In a history-independent container, replaying the planned entries of sound classes never fails, and boots and registers entry by entry in key order. |
| PlanProperties.GenerationActs | src/BootloadManager.php:146-175 | In any container, a successful generation over classes that are not repeated and not yet in the schema appends one entry per class. It boots and registers exactly what the appended entries say, in order. |
| PlanProperties.ReplayActs | src/BootloadManager.php:109-125 | In any container, a successful replay of generated-shape entries boots and registers exactly what the entries say, in key order. |
| PlanProperties.ReplayActsAsGeneration | src/BootloadManager.php:107-178 | In any container, for a list without repeated classes where generation and the replay of its schema both succeed, both process the list. Both boot and register exactly what the schema's entries say, so they make the same boots and registrations. |
| PlanProperties.ReplayReproducesGeneration | src/BootloadManager.php:107-178 | Replaying a generated schema in a history-independent container never fails and processes the input's classes in order of first occurrence. It makes the same boots and registrations as generation, except that a repeated class is replayed once. |
| PlanProperties.ReplayOfDistinctInput | src/BootloadManager.php:107-178 | With no repeated class, replay and generation process the same classes and make the same boots and registrations. |
| PlanProperties.RepeatedClassReplayedOnce | src/BootloadManager.php:146-174 | A plain class listed twice is constructed twice by generation and once by replay of the resulting schema. |
| PlanProperties.RegisteringFirstCanFail | src/BootloadManager.php:110-163 | Take a bootloader whose construction fails once its own binding is registered. Generation calls `get` (line 150) before registering (line 163), so it succeeds and boots the class. Replay of the resulting schema registers first (line 113), so `get` (line 117) fails with that error before any boot. |
| PlanProperties.DefaultBootloadersOnlyConstructed | src/BootloadManager.php:152-169 | Bootloaders that override nothing are only constructed during generation: no binding, no boot. Each is recorded as `{init: false, boot: false, bindings: [], singletons: []}`. |
| PlanProperties.DefaultEntriesReplaySilently | src/BootloadManager.php:112-124 | Replaying such entries makes no container call and still records each class as processed. |
| PlanProperties.CacheReuse | src/BootloadManager.php:68-96 | In any container, after `bootload` generated and saved a schema, a second call with the same list and section replays it and only reads the store. The schema it reads holds the generated entries. |
| PlanProperties.CacheReuseSucceeds | src/BootloadManager.php:68-125 | In a history-independent container that second call also succeeds, processing the list's classes in order of first occurrence. |
| BootloadManagers.BootloadManager.constructor | src/BootloadManager.php:43-47 | A new manager has processed no class and holds the given container and store. |
| BootloadManagers.BootloadManager.GetClasses | src/BootloadManager.php:54-57 | `getClasses` returns the processed classes. |
| BootloadManagers.BootloadManager.Bootload | src/BootloadManager.php:68-96 | The method's effect on `$classes`, the container, the store and its result equals `Plans.Bootload`. |
| BootloadManagers.BootloadManager.BootSchema | src/BootloadManager.php:107-126 | The loop's effect on `$classes` and on the container, and the error it stops with, equal `Plans.ReplayFrom` over the schema's entries. |
| BootloadManagers.BootloadManager.GenerateSchema | src/BootloadManager.php:139-178 | The loop's effect equals `Plans.GenerateFrom`. It returns a schema whose snapshot is the input list with the generated entries, or the error that stopped it. |
| BootloadManagers.BootloadManager.InitBindings | src/BootloadManager.php:186-195 | The container receives every binding, then every singleton, in map order, and nothing else. |

## Left out

- The container's own logic is left out: autowiring, `resolveArguments` and reflection (`ReflectionClass::getConstant`, `ReflectionMethod::invokeArgs`). What `get` yields and whether a boot throws come from the `World` functions.
- A `boot` call whose method is missing or whose arguments cannot be resolved is not modelled separately. It appears only as a boot failure.
- `Memories.Memory.LoadData`/`SaveData` never fail. In the source a store exception escapes unwrapped, because lines 71 and 84 are outside both `try` blocks. A `saveData` error would surface after generation already changed `$classes` and the container.
- `PlanProperties.ReplayActsAsGeneration` requires a list without repeated classes. With a repeated class, generation acts once per occurrence, while the schema holds one entry per class. `ReplayReproducesGeneration` covers repeats in a history-independent container.
- `Containers.Container.Bind` and `Containers.Container.BindSingleton` never fail. The engine does not catch anything specific to them.
- `BOOT` is taken to be a boolean already, so the `(bool)` cast of another value is not modelled. A `BootloaderInterface` implementer without the constant is a bootloader whose `boot` is false.
- PHP's loose `!=` on the snapshot is modelled as sequence equality. Numeric-string class names and aliases, which PHP turns into integer array keys, are not modelled.
- Stored schemas are assumed well-formed. The model does not cover an empty array, missing keys, or `bindings` without `singletons`. An ordered map here is a list of pairs that could repeat a key, which no PHP array can. Generation only builds maps with distinct keys (`Plans.GeneratedKeys`), but a schema placed in the store from outside could hold a repeated key. Replay would then process that key once per pair, which the source cannot do.
- Resolvers are strings. Closures and objects as resolvers are not modelled.
- `BootloadException` keeps only the message and code. The chained previous exception is not modelled.
- `MemoryInterface` serialization is not modelled. The store is a map from section to schema.
- `src/Exception/ConfiguratorException.php` and `tests/Core/Fixtures/DependedClass.php` carry no engine logic and are not part of this model.
- The two paths order a bootloader's calls differently. Generation calls `get` (line 150) before `initBindings` (line 163). Replay calls `initBindings` (line 113) before `get` (line 117). The model keeps both orders. Because of this, replaying a generated schema can fail where generation succeeded, for example for a class whose `get` depends on its own bindings (`PlanProperties.RegisteringFirstCanFail`).

/** The bootstrap engine as functions of its inputs: generating a schema while booting
    (`generateSchema`), replaying a cached schema (`bootSchema`) and the cache decision
    of `bootload`. Each run starts from the engine's state: the classes processed so far
    and every call already made on the container. */
module Plans {
  import opened Wrappers
  import opened Sequences
  import opened OrderedMaps
  import opened Bootloaders
  import opened Containers
  import opened Schemas
  import opened Memories

  /** State of a generation run: processed classes, container calls, the entries built so
      far, and the error that stopped the run, if one did. */
  datatype Generation = Generation(
    processed: seq<Class>,
    events: seq<Event>,
    entries: OrderedMap<Class, Entry>,
    failure: Option<Error>)

  /** State of a replay run. */
  datatype Replay = Replay(processed: seq<Class>, events: seq<Event>, failure: Option<Error>)

  /** An entry as generation can produce it: no capabilities means constructed and not
      booted; with capabilities, `init` equals `boot`. */
  ghost predicate Shaped(e: Entry) {
    && (e.capabilities.None? ==> e.init && !e.boot)
    && (e.capabilities.Some? ==> e.init == e.boot)
  }

  /** The entry generation records for what `get` returned: only a bootloader carries
      bindings, and every entry has the generated shape. */
  function EntryOf(inst: Instance): (e: Entry)
    ensures e.capabilities.Some? <==> inst.Configuring?
    ensures Shaped(e) && (e.boot ==> e.init)
  {
    match inst
    case Plain => Entry(true, false, None)
    case Configuring(b) =>
      Entry(b.boot, b.boot, Some(Capabilities(DefineBindings(b), DefineSingletons(b))))
  }

  /** The container calls of `boot` if the entry asks for it. */
  function BootEvents(c: Class, e: Entry): seq<Event> {
    if e.boot then [Booted(c)] else []
  }

  /** One iteration of generation's loop for class `c`. */
  function GenerateStep(g: Generation, c: Class, w: World): (r: Generation)
    requires g.failure.None?
    ensures r.processed == g.processed + [c]
    ensures r.failure.None? ==> w.objects(g.events, c).Success?
  {
    var got := g.events + [Got(c)];
    match w.objects(g.events, c)
    case Failure(err) => Generation(g.processed + [c], got, g.entries, Some(err))
    case Success(inst) =>
      var e := EntryOf(inst);
      var bound := got + CapabilityEvents(e);
      if !e.boot then
        Generation(g.processed + [c], bound, Put(g.entries, c, e), None)
      else
        var failure := w.boots(bound, c);
        Generation(g.processed + [c], bound + [Booted(c)],
                   if failure.None? then Put(g.entries, c, e) else g.entries, failure)
  }

  /** What one generation step does: the class is recorded as processed, `get` is called
      first, then the bindings and singletons are registered and the boot method invoked;
      a successful step stores the entry under the class. */
  lemma GenerateStepEffects(g: Generation, c: Class, w: World, r: Generation)
    requires g.failure.None? && r == GenerateStep(g, c, w)
    ensures r.processed == g.processed + [c]
    ensures |g.events| < |r.events| && r.events[..|g.events|] == g.events
    ensures r.events[|g.events|] == Got(c)
    ensures w.objects(g.events, c).Failure? ==>
      r.failure == Some(w.objects(g.events, c).error) && r.events == g.events + [Got(c)]
    ensures w.objects(g.events, c).Success? ==>
      var e := EntryOf(w.objects(g.events, c).value);
      && r.events == g.events + [Got(c)] + CapabilityEvents(e) + BootEvents(c, e)
      && (r.failure.Some? ==> e.boot && r.failure == w.boots(g.events + [Got(c)] + CapabilityEvents(e), c))
      && (r.failure.None? ==> r.entries == Put(g.entries, c, e))
    ensures r.failure.Some? ==> r.entries == g.entries
  {
  }

  /** The entry a successful generation step stores under its class: a plain object is
      to be constructed and not booted and has no bindings; a bootloader is constructed and
      booted exactly when its `BOOT` says so and carries its bindings and singletons. */
  lemma GenerateStepRecords(g: Generation, c: Class, w: World)
    requires g.failure.None? && GenerateStep(g, c, w).failure.None?
    ensures w.objects(g.events, c).Success?
    ensures w.objects(g.events, c).value.Plain? ==>
      Lookup(GenerateStep(g, c, w).entries, c) == Some(Entry(true, false, None))
    ensures w.objects(g.events, c).value.Configuring? ==>
      var b := w.objects(g.events, c).value.loader;
      Lookup(GenerateStep(g, c, w).entries, c) ==
        Some(Entry(b.boot, b.boot, Some(Capabilities(b.bindings, b.singletons))))
  {
    GenerateStepEffects(g, c, w, GenerateStep(g, c, w));
    PutSpec(g.entries, c, EntryOf(w.objects(g.events, c).value));
  }

  /** Generation over the remaining classes `cs`; stops at the first error. */
  function GenerateFrom(g: Generation, cs: seq<Class>, w: World): (r: Generation)
    ensures g.failure.Some? ==> r == g
    ensures |g.processed| <= |r.processed| <= |g.processed| + |cs|
    ensures r.failure.None? ==> |r.processed| == |g.processed| + |cs|
    decreases |cs|
  {
    if cs == [] || g.failure.Some? then g
    else GenerateFrom(GenerateStep(g, cs[0], w), cs[1..], w)
  }

  /** One iteration of replay's loop for entry `(c, e)`. */
  function ReplayStep(r: Replay, c: Class, e: Entry, w: World): (r': Replay)
    requires r.failure.None?
    ensures r'.processed == r.processed + [c]
    ensures !e.init ==> r'.failure.None?
  {
    var bound := r.events + CapabilityEvents(e);
    if !e.init then Replay(r.processed + [c], bound, None)
    else
      var got := bound + [Got(c)];
      match w.objects(bound, c)
      case Failure(err) => Replay(r.processed + [c], got, Some(err))
      case Success(_) =>
        if !e.boot then Replay(r.processed + [c], got, None)
        else Replay(r.processed + [c], got + [Booted(c)], w.boots(got, c))
  }

  /** What one replay step does: the capabilities are registered first; an entry with
      `init` is then fetched from the container and, when `boot` is set, booted. */
  lemma ReplayStepEffects(r0: Replay, c: Class, e: Entry, w: World, r1: Replay)
    requires r0.failure.None? && r1 == ReplayStep(r0, c, e, w)
    ensures r1.processed == r0.processed + [c]
    ensures Prefix(r0.events + CapabilityEvents(e), r1.events)
    ensures !e.init ==> r1.events == r0.events + CapabilityEvents(e) && r1.failure.None?
    ensures e.init ==>
      var bound := r0.events + CapabilityEvents(e);
      && (w.objects(bound, c).Failure? ==>
            r1.events == bound + [Got(c)] && r1.failure == Some(w.objects(bound, c).error))
      && (w.objects(bound, c).Success? ==>
            && r1.events == bound + [Got(c)] + BootEvents(c, e)
            && r1.failure == if e.boot then w.boots(bound + [Got(c)], c) else None)
  {
  }

  /** Replay of the remaining entries `es`, in insertion order; stops at the first error. */
  function ReplayFrom(r: Replay, es: OrderedMap<Class, Entry>, w: World): (R: Replay)
    ensures r.failure.Some? ==> R == r
    ensures |r.processed| <= |R.processed| <= |r.processed| + |es|
    ensures R.failure.None? ==> |R.processed| == |r.processed| + |es|
    decreases |es|
  {
    if es == [] || r.failure.Some? then r
    else ReplayFrom(ReplayStep(r, es[0].0, es[0].1, w), es[1..], w)
  }

  /** Generation only ever appends, to the processed classes and to the container calls. */
  lemma {:induction false} GenerateGrows(g: Generation, cs: seq<Class>, w: World)
    requires g.failure.None?
    ensures Prefix(g.processed, GenerateFrom(g, cs, w).processed)
    ensures Prefix(g.events, GenerateFrom(g, cs, w).events)
    decreases |cs|
  {
    if cs != [] {
      var g' := GenerateStep(g, cs[0], w);
      GenerateStepEffects(g, cs[0], w, g');
      if g'.failure.None? {
        GenerateGrows(g', cs[1..], w);
        PrefixTransitive(g.processed, g'.processed, GenerateFrom(g', cs[1..], w).processed);
        PrefixTransitive(g.events, g'.events, GenerateFrom(g', cs[1..], w).events);
      }
    }
  }

  /** A generation run that does not fail processes every input class, in order. */
  lemma {:induction false} GenerateProcesses(g: Generation, cs: seq<Class>, w: World)
    requires g.failure.None?
    requires GenerateFrom(g, cs, w).failure.None?
    ensures GenerateFrom(g, cs, w).processed == g.processed + cs
    decreases |cs|
  {
    if cs != [] {
      var g' := GenerateStep(g, cs[0], w);
      assert g'.processed == g.processed + [cs[0]];
      assert GenerateFrom(g, cs, w) == GenerateFrom(g', cs[1..], w);
      GenerateProcesses(g', cs[1..], w);
      assert cs == [cs[0]] + cs[1..];
      AppendAssociative(g.processed, [cs[0]], cs[1..]);
    }
  }

  /** A generation run from `g` over `cs` that stopped at its `n`-th class: the classes
      before it went through without error, and the run ends with that class's failing
      step, having processed exactly the first `n` classes. */
  ghost predicate GenerationStopsAt(g: Generation, cs: seq<Class>, w: World, n: nat)
    requires g.failure.None?
  {
    && 0 < n <= |cs|
    && GenerateFrom(g, cs[..n - 1], w).failure.None?
    && GenerateFrom(g, cs, w) == GenerateStep(GenerateFrom(g, cs[..n - 1], w), cs[n - 1], w)
    && GenerateFrom(g, cs, w).failure.Some?
    && GenerateFrom(g, cs, w).processed == g.processed + cs[..n]
  }

  /** A run that stops at the `m`-th class after a first step that went through stops
      at the `m + 1`-th class when counted from before that step. */
  lemma GenerationStopsLater(g: Generation, cs: seq<Class>, w: World, m: nat)
    requires g.failure.None? && cs != []
    requires GenerateStep(g, cs[0], w).failure.None?
    requires GenerationStopsAt(GenerateStep(g, cs[0], w), cs[1..], w, m)
    ensures GenerationStopsAt(g, cs, w, m + 1)
  {
    var g' := GenerateStep(g, cs[0], w);
    var pre := cs[..m];
    assert pre[0] == cs[0] && pre[1..] == cs[1..][..m - 1];
    assert GenerateFrom(g, pre, w) == GenerateFrom(g', cs[1..][..m - 1], w);
    assert GenerateFrom(g, cs, w) == GenerateFrom(g', cs[1..], w);
    assert cs[m] == cs[1..][m - 1];
    assert cs[..m + 1] == [cs[0]] + cs[1..][..m];
    AppendAssociative(g.processed, [cs[0]], cs[1..][..m]);
  }

  /** A failing generation run stops at the first class whose construction or boot
      failed: nothing after that class is processed. */
  lemma {:induction false} GenerateStops(g: Generation, cs: seq<Class>, w: World)
    requires g.failure.None?
    ensures GenerateFrom(g, cs, w).failure.Some? ==> exists n: nat :: GenerationStopsAt(g, cs, w, n)
    decreases |cs|
  {
    if cs != [] {
      var g' := GenerateStep(g, cs[0], w);
      if g'.failure.None? {
        assert GenerateFrom(g, cs, w) == GenerateFrom(g', cs[1..], w);
        GenerateStops(g', cs[1..], w);
        if GenerateFrom(g', cs[1..], w).failure.Some? {
          var m: nat :| GenerationStopsAt(g', cs[1..], w, m);
          GenerationStopsLater(g, cs, w, m);
        }
      } else {
        assert GenerateFrom(g, cs, w) == g';
        assert cs[..0] == [];
        assert cs[..1] == [cs[0]];
        assert GenerationStopsAt(g, cs, w, 1);
      }
    }
  }

  /** Replay only ever appends, to the processed classes and to the container calls. */
  lemma {:induction false} ReplayGrows(r: Replay, es: OrderedMap<Class, Entry>, w: World)
    requires r.failure.None?
    ensures Prefix(r.processed, ReplayFrom(r, es, w).processed)
    ensures Prefix(r.events, ReplayFrom(r, es, w).events)
    decreases |es|
  {
    if es != [] {
      var r' := ReplayStep(r, es[0].0, es[0].1, w);
      ReplayStepEffects(r, es[0].0, es[0].1, w, r');
      PrefixTransitive(r.events, r.events + CapabilityEvents(es[0].1), r'.events);
      if r'.failure.None? {
        ReplayGrows(r', es[1..], w);
        PrefixTransitive(r.processed, r'.processed, ReplayFrom(r', es[1..], w).processed);
        PrefixTransitive(r.events, r'.events, ReplayFrom(r', es[1..], w).events);
      }
    }
  }

  /** A replay run from `r` over `es` that stopped at its `n`-th entry: the entries
      before it went through without error, and the run ends with that entry's failing
      step, having processed exactly the first `n` keys. */
  ghost predicate ReplayStopsAt(r: Replay, es: OrderedMap<Class, Entry>, w: World, n: nat)
    requires r.failure.None?
  {
    && 0 < n <= |es|
    && ReplayFrom(r, es[..n - 1], w).failure.None?
    && ReplayFrom(r, es, w) == ReplayStep(ReplayFrom(r, es[..n - 1], w), es[n - 1].0, es[n - 1].1, w)
    && ReplayFrom(r, es, w).failure.Some?
    && ReplayFrom(r, es, w).processed == r.processed + Keys(es)[..n]
  }

  /** The replay counterpart of `GenerationStopsLater`. */
  lemma ReplayStopsLater(r: Replay, es: OrderedMap<Class, Entry>, w: World, m: nat)
    requires r.failure.None? && es != []
    requires ReplayStep(r, es[0].0, es[0].1, w).failure.None?
    requires ReplayStopsAt(ReplayStep(r, es[0].0, es[0].1, w), es[1..], w, m)
    ensures ReplayStopsAt(r, es, w, m + 1)
  {
    var r' := ReplayStep(r, es[0].0, es[0].1, w);
    var pre := es[..m];
    assert pre[0] == es[0] && pre[1..] == es[1..][..m - 1];
    assert ReplayFrom(r, pre, w) == ReplayFrom(r', es[1..][..m - 1], w);
    assert ReplayFrom(r, es, w) == ReplayFrom(r', es[1..], w);
    assert es[m] == es[1..][m - 1];
    assert Keys(es) == [es[0].0] + Keys(es[1..]);
    assert Keys(es)[..m + 1] == [es[0].0] + Keys(es[1..])[..m];
    AppendAssociative(r.processed, [es[0].0], Keys(es[1..])[..m]);
  }

  /** Replay processes the entry keys in insertion order and stops at the first entry
      whose construction or boot fails. */
  lemma {:induction false} ReplayProcesses(r: Replay, es: OrderedMap<Class, Entry>, w: World)
    requires r.failure.None?
    ensures ReplayFrom(r, es, w).failure.None? ==> ReplayFrom(r, es, w).processed == r.processed + Keys(es)
    ensures ReplayFrom(r, es, w).failure.Some? ==> exists n: nat :: ReplayStopsAt(r, es, w, n)
    decreases |es|
  {
    if es != [] {
      var r' := ReplayStep(r, es[0].0, es[0].1, w);
      if r'.failure.None? {
        assert ReplayFrom(r, es, w) == ReplayFrom(r', es[1..], w);
        ReplayProcesses(r', es[1..], w);
        if ReplayFrom(r', es[1..], w).failure.Some? {
          var m: nat :| ReplayStopsAt(r', es[1..], w, m);
          ReplayStopsLater(r, es, w, m);
        } else {
          assert Keys(es) == [es[0].0] + Keys(es[1..]);
          AppendAssociative(r.processed, [es[0].0], Keys(es[1..]));
        }
      } else {
        assert ReplayFrom(r, es, w) == r';
        assert es[..0] == [];
        assert Keys(es)[..1] == [es[0].0];
        assert ReplayStopsAt(r, es, w, 1);
      }
    }
  }

  /** After a successful generation the schema's keys are the input classes in order of
      first occurrence: a repeated class keeps its first position. */
  lemma {:induction false} GeneratedKeys(g: Generation, cs: seq<Class>, w: World)
    requires g.failure.None?
    requires GenerateFrom(g, cs, w).failure.None?
    ensures Keys(GenerateFrom(g, cs, w).entries) == AddNew(Keys(g.entries), cs)
    decreases |cs|
  {
    if cs != [] {
      var g' := GenerateStep(g, cs[0], w);
      GenerateStepEffects(g, cs[0], w, g');
      if w.objects(g.events, cs[0]).Success? {
        PutSpec(g.entries, cs[0], EntryOf(w.objects(g.events, cs[0]).value));
      }
      GeneratedKeys(g', cs[1..], w);
    }
  }

  /** Every entry a generation run records has the shape generation gives entries. */
  lemma {:induction false} GeneratedEntriesShaped(g: Generation, cs: seq<Class>, w: World)
    requires g.failure.None?
    requires forall p :: p in g.entries ==> Shaped(p.1)
    ensures forall p :: p in GenerateFrom(g, cs, w).entries ==> Shaped(p.1)
    decreases |cs|
  {
    if cs != [] {
      var g' := GenerateStep(g, cs[0], w);
      GenerateStepEffects(g, cs[0], w, g');
      if w.objects(g.events, cs[0]).Success? {
        PutSpec(g.entries, cs[0], EntryOf(w.objects(g.events, cs[0]).value));
      }
      if g'.failure.None? {
        GeneratedEntriesShaped(g', cs[1..], w);
      }
    }
  }

  /** How `bootload` returns: normally, or by throwing `BootloadException`. */
  datatype Status = Ok | BootloadException(message: string, code: int)

  /** The exception `bootload` throws for an error caught from a run. */
  function Wrap(failure: Option<Error>): (s: Status)
    ensures s.Ok? <==> failure.None?
    ensures failure.Some? ==> s.message == failure.value.message && s.code == failure.value.code
  {
    match failure
    case None => Ok
    case Some(e) => BootloadException(e.message, e.code)
  }

  /** `!empty($memory)`: a section is given, it is not "" and, PHP's `empty` being what it is, not "0". */
  predicate Enabled(section: Option<string>): (b: bool)
    ensures b ==> section.Some? && |section.value| > 0
    ensures section.Some? && |section.value| > 1 ==> b
    ensures section.Some? && |section.value| == 1 ==> (b <==> section.value[0] != '0')
  {
    section.Some? && section.value != "" && section.value != "0"
  }

  /** The effect of one `bootload` call: which path it took, the processed classes and
      container calls afterwards, the calls made on the memory store, what the store holds
      afterwards, and how the call returned. */
  datatype Outcome = Outcome(
    replayed: bool,
    processed: seq<Class>,
    events: seq<Event>,
    accesses: seq<Access>,
    stored: map<string, Schema>,
    status: Status)

  /** `bootload($classes, $memory)` on an engine that has processed `processed`, a
      container that has seen `history`, and a store holding `stored`. */
  function Bootload(
    cs: seq<Class>, section: Option<string>, stored: map<string, Schema>,
    processed: seq<Class>, history: seq<Event>, w: World): (o: Outcome)
    // The cached schema is replayed exactly when caching is on, a schema is stored under
    // the section, and its snapshot is the requested list.
    ensures o.replayed <==>
      Enabled(section) && section.value in stored && stored[section.value].snapshot == cs
    // Without a section the store is not touched.
    ensures !Enabled(section) ==> o.accesses == [] && o.stored == stored
    // With one, the store is read first, and written only after a successful generation;
    // what is written is a schema for exactly the requested list.
    ensures Enabled(section) ==> 1 <= |o.accesses| <= 2 && o.accesses[0] == Load(section.value)
    ensures |o.accesses| == 2 <==> Enabled(section) && !o.replayed && o.status.Ok?
    ensures |o.accesses| == 2 ==>
      && section.value in o.stored
      && o.accesses[1] == Save(section.value, o.stored[section.value])
      && o.stored == stored[section.value := o.stored[section.value]]
      && o.stored[section.value].snapshot == cs
      && o.stored[section.value].bootloaders == GenerateFrom(Generation(processed, history, [], None), cs, w).entries
    ensures |o.accesses| < 2 ==> o.stored == stored
    // Processed classes and container calls are only appended to.
    ensures Prefix(processed, o.processed) && Prefix(history, o.events)
    // A successful generation processes exactly the requested classes, in order, and a
    // successful replay exactly the keys of the cached schema.
    ensures !o.replayed && o.status.Ok? ==> o.processed == processed + cs
    ensures o.replayed && o.status.Ok? ==>
      o.processed == processed + Keys(stored[section.value].bootloaders)
    // A failure stops the run at the first class that failed: the classes before it went
    // through, nothing after it was processed, and its error is the one rethrown.
    ensures !o.replayed && o.status.BootloadException? ==>
      exists n: nat :: GenerationStopsAt(Generation(processed, history, [], None), cs, w, n)
    ensures o.replayed && o.status.BootloadException? ==>
      exists n: nat :: ReplayStopsAt(Replay(processed, history, None), stored[section.value].bootloaders, w, n)
    // Exactly one of the two runs happens.
    ensures !o.replayed ==>
      var G := GenerateFrom(Generation(processed, history, [], None), cs, w);
      o.processed == G.processed && o.events == G.events
    ensures o.replayed ==>
      var R := ReplayFrom(Replay(processed, history, None), stored[section.value].bootloaders, w);
      o.processed == R.processed && o.events == R.events
    // The path that ran is the one whose error is rethrown, with its message and code.
    ensures !o.replayed ==>
      o.status == Wrap(GenerateFrom(Generation(processed, history, [], None), cs, w).failure)
    ensures o.replayed ==>
      o.status == Wrap(ReplayFrom(Replay(processed, history, None), stored[section.value].bootloaders, w).failure)
  {
    var loads := if Enabled(section) then [Load(section.value)] else [];
    if Enabled(section) && section.value in stored && stored[section.value].snapshot == cs then
      var r := Replay(processed, history, None);
      var R := ReplayFrom(r, stored[section.value].bootloaders, w);
      ReplayGrows(r, stored[section.value].bootloaders, w);
      ReplayProcesses(r, stored[section.value].bootloaders, w);
      Outcome(true, R.processed, R.events, loads, stored, Wrap(R.failure))
    else
      var g := Generation(processed, history, [], None);
      var G := GenerateFrom(g, cs, w);
      GenerateGrows(g, cs, w);
      GenerateStops(g, cs, w);
      if G.failure.Some? then
        Outcome(false, G.processed, G.events, loads, stored, Wrap(G.failure))
      else
        GenerateProcesses(g, cs, w);
        if Enabled(section) then
          var schema := Schema(cs, G.entries);
          Outcome(false, G.processed, G.events, loads + [Save(section.value, schema)],
                  stored[section.value := schema], Ok)
        else
          Outcome(false, G.processed, G.events, loads, stored, Ok)
  }
}

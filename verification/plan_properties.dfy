/** What replaying a generated schema reproduces, what default bootloaders do, and cache
    reuse across two `bootload` calls. */
module PlanProperties {
  import opened Wrappers
  import opened Sequences
  import opened OrderedMaps
  import opened Bootloaders
  import opened Containers
  import opened Schemas
  import opened Memories
  import opened Plans

  /** A container that resolves and boots each class the same way whatever was bound
      before: the situation in which a cached schema is meant to stand for a fresh one. */
  ghost predicate HistoryIndependent(w: World) {
    && (forall h, c :: w.objects(h, c) == w.objects([], c))
    && (forall h, c :: w.boots(h, c) == w.boots([], c))
  }

  /** The class an event boots, if it is a boot. */
  function BootOf(ev: Event): seq<Class> {
    if ev.Booted? then [ev.cls] else []
  }

  /** The event itself if it is a `bind` or `bindSingleton` call. */
  function RegistrationOf(ev: Event): seq<Event> {
    if ev.Bound? || ev.BoundSingleton? then [ev] else []
  }

  /** The classes whose boot hook was invoked, in order. */
  function BootsOf(evs: seq<Event>): seq<Class> {
    if evs == [] then [] else BootOf(evs[0]) + BootsOf(evs[1..])
  }

  /** The `bind` and `bindSingleton` calls, in order. */
  function RegistrationsOf(evs: seq<Event>): seq<Event> {
    if evs == [] then [] else RegistrationOf(evs[0]) + RegistrationsOf(evs[1..])
  }

  /** The entry generation records for `c` in a history-independent container. The
      `Failure` case is never consulted: a failing class stops generation. */
  function PlannedEntry(w: World, c: Class): Entry {
    match w.objects([], c)
    case Success(inst) => EntryOf(inst)
    case Failure(_) => Entry(true, false, None)
  }

  /** Every class of `cs` is constructed without error and, if it is to be booted, boots
      without error. */
  ghost predicate Sound(cs: seq<Class>, w: World) {
    forall c :: c in cs ==> w.objects([], c).Success? && (PlannedEntry(w, c).boot ==> w.boots([], c).None?)
  }

  /** The classes of `cs` whose entries ask for a boot, in order. */
  function PlannedBoots(cs: seq<Class>, w: World): seq<Class> {
    if cs == [] then []
    else (if PlannedEntry(w, cs[0]).boot then [cs[0]] else []) + PlannedBoots(cs[1..], w)
  }

  /** The registrations the entries of `cs` carry, in order. */
  function PlannedRegistrations(cs: seq<Class>, w: World): seq<Event> {
    if cs == [] then []
    else CapabilityEvents(PlannedEntry(w, cs[0])) + PlannedRegistrations(cs[1..], w)
  }

  lemma {:induction false} BootsOfAppend(a: seq<Event>, b: seq<Event>)
    ensures BootsOf(a + b) == BootsOf(a) + BootsOf(b)
  {
    if a == [] {
      assert a + b == b;
    } else {
      var x, rest := a[0], a[1..];
      assert BootsOf(a) == BootOf(x) + BootsOf(rest);
      assert a + b == [x] + (rest + b);
      assert BootsOf(a + b) == BootOf(x) + BootsOf(rest + b);
      BootsOfAppend(rest, b);
      AppendAssociative(BootOf(x), BootsOf(rest), BootsOf(b));
    }
  }


  lemma {:induction false} RegistrationsOfAppend(a: seq<Event>, b: seq<Event>)
    ensures RegistrationsOf(a + b) == RegistrationsOf(a) + RegistrationsOf(b)
  {
    if a == [] {
      assert a + b == b;
    } else {
      var x, rest := a[0], a[1..];
      assert RegistrationsOf(a) == RegistrationOf(x) + RegistrationsOf(rest);
      assert a + b == [x] + (rest + b);
      assert RegistrationsOf(a + b) == RegistrationOf(x) + RegistrationsOf(rest + b);
      RegistrationsOfAppend(rest, b);
      AppendAssociative(RegistrationOf(x), RegistrationsOf(rest), RegistrationsOf(b));
    }
  }


  /** Registering bindings boots nothing and registers exactly those bindings. */
  lemma {:induction false} RegistrationsOnlyRegister(evs: seq<Event>)
    requires forall i :: 0 <= i < |evs| ==> evs[i].Bound? || evs[i].BoundSingleton?
    ensures BootsOf(evs) == []
    ensures RegistrationsOf(evs) == evs
  {
    if evs != [] {
      var rest := evs[1..];
      assert evs[0].Bound? || evs[0].BoundSingleton?;
      RegistrationsOnlyRegister(rest);
      assert BootsOf(evs) == BootsOf(rest);
      assert RegistrationsOf(evs) == [evs[0]] + rest;
      assert evs == [evs[0]] + rest;
    }
  }

  lemma CapabilityEventsOnlyRegister(e: Entry)
    ensures BootsOf(CapabilityEvents(e)) == []
    ensures RegistrationsOf(CapabilityEvents(e)) == CapabilityEvents(e)
  {
    if e.capabilities.Some? {
      RegistrationsSpec(e.capabilities.value);
    }
    RegistrationsOnlyRegister(CapabilityEvents(e));
  }

  /** The calls after the registrations of `c`'s entry: at most a `get` and a boot. */
  lemma TailCalls(c: Class, e: Entry, tail: seq<Event>)
    requires tail == BootEvents(c, e) || tail == [Got(c)] + BootEvents(c, e)
    ensures BootsOf(tail) == if e.boot then [c] else []
    ensures RegistrationsOf(tail) == []
  {
  }

  /** The boots and registrations of the calls `c`'s entry asks for once it is constructed. */
  lemma EntryCalls(h: seq<Event>, c: Class, e: Entry, tail: seq<Event>)
    requires tail == BootEvents(c, e) || tail == [Got(c)] + BootEvents(c, e)
    ensures BootsOf(h + CapabilityEvents(e) + tail) == BootsOf(h) + (if e.boot then [c] else [])
    ensures RegistrationsOf(h + CapabilityEvents(e) + tail) == RegistrationsOf(h) + CapabilityEvents(e)
  {
    var caps := CapabilityEvents(e);
    CapabilityEventsOnlyRegister(e);
    TailCalls(c, e, tail);
    calc {
      BootsOf(h + caps + tail);
      { BootsOfAppend(h + caps, tail); }
      BootsOf(h + caps) + BootsOf(tail);
      { BootsOfAppend(h, caps); }
      BootsOf(h) + [] + BootsOf(tail);
      BootsOf(h) + (if e.boot then [c] else []);
    }
    calc {
      RegistrationsOf(h + caps + tail);
      { RegistrationsOfAppend(h + caps, tail); }
      RegistrationsOf(h + caps) + [];
      { RegistrationsOfAppend(h, caps); }
      RegistrationsOf(h) + caps + [];
      RegistrationsOf(h) + caps;
    }
  }

  /** One successful generation step, in any container: the class constructed, its entry
      is stored, and the step boots the class exactly when that entry asks for it and
      makes exactly the registrations the entry carries. */
  lemma GenerateStepActs(g: Generation, c: Class, w: World)
    requires g.failure.None? && GenerateStep(g, c, w).failure.None?
    ensures w.objects(g.events, c).Success?
    ensures var e := EntryOf(w.objects(g.events, c).value);
      && GenerateStep(g, c, w).entries == Put(g.entries, c, e)
      && BootsOf(GenerateStep(g, c, w).events) == BootsOf(g.events) + (if e.boot then [c] else [])
      && RegistrationsOf(GenerateStep(g, c, w).events) == RegistrationsOf(g.events) + CapabilityEvents(e)
  {
    GenerateStepEffects(g, c, w, GenerateStep(g, c, w));
    var e := EntryOf(w.objects(g.events, c).value);
    BootsOfAppend(g.events, [Got(c)]);
    RegistrationsOfAppend(g.events, [Got(c)]);
    assert BootsOf([Got(c)]) == [] && RegistrationsOf([Got(c)]) == [];
    assert BootsOf(g.events + [Got(c)]) == BootsOf(g.events);
    assert RegistrationsOf(g.events + [Got(c)]) == RegistrationsOf(g.events);
    EntryCalls(g.events + [Got(c)], c, e, BootEvents(c, e));
  }

  /** One successful generation step in a history-independent container: the class is
      sound, and the step boots it exactly when its planned entry asks for it and makes
      exactly the registrations that entry carries. */
  lemma GenerateStepCalls(g: Generation, c: Class, w: World)
    requires HistoryIndependent(w) && g.failure.None?
    requires GenerateStep(g, c, w).failure.None?
    ensures w.objects([], c).Success? && (PlannedEntry(w, c).boot ==> w.boots([], c).None?)
    ensures BootsOf(GenerateStep(g, c, w).events) ==
            BootsOf(g.events) + (if PlannedEntry(w, c).boot then [c] else [])
    ensures RegistrationsOf(GenerateStep(g, c, w).events) ==
            RegistrationsOf(g.events) + CapabilityEvents(PlannedEntry(w, c))
  {
    GenerateStepEffects(g, c, w, GenerateStep(g, c, w));
    assert w.objects(g.events, c) == w.objects([], c);
    var bound := g.events + [Got(c)] + CapabilityEvents(PlannedEntry(w, c));
    if PlannedEntry(w, c).boot {
      assert w.boots(bound, c) == w.boots([], c);
    }
    GenerateStepActs(g, c, w);
  }

  /** In a history-independent container, a successful generation run meets only sound
      classes, boots exactly the classes whose entries ask for it and registers exactly
      the bindings the entries carry, class by class in input order. */
  lemma {:induction false} GenerationCalls(g: Generation, cs: seq<Class>, w: World)
    requires HistoryIndependent(w) && g.failure.None?
    requires GenerateFrom(g, cs, w).failure.None?
    ensures Sound(cs, w)
    ensures BootsOf(GenerateFrom(g, cs, w).events) == BootsOf(g.events) + PlannedBoots(cs, w)
    ensures RegistrationsOf(GenerateFrom(g, cs, w).events) ==
            RegistrationsOf(g.events) + PlannedRegistrations(cs, w)
    decreases |cs|
  {
    if cs != [] {
      var c := cs[0];
      var g' := GenerateStep(g, c, w);
      GenerateStepEffects(g, c, w, g');
      assert GenerateFrom(g, cs, w) == GenerateFrom(g', cs[1..], w);
      assert g'.failure.None?;
      GenerateStepCalls(g, c, w);
      GenerationCalls(g', cs[1..], w);
      var e := PlannedEntry(w, c);
      AppendAssociative(BootsOf(g.events), if e.boot then [c] else [], PlannedBoots(cs[1..], w));
      AppendAssociative(RegistrationsOf(g.events), CapabilityEvents(e), PlannedRegistrations(cs[1..], w));
      assert forall x :: x in cs <==> x == c || x in cs[1..] by {
        assert cs == [c] + cs[1..];
      }
    }
  }

  /** In a history-independent container, every entry a generation run records is the
      planned entry of its class. */
  lemma {:induction false} GenerationPlans(g: Generation, cs: seq<Class>, w: World)
    requires HistoryIndependent(w) && g.failure.None?
    requires forall p :: p in g.entries ==> p.1 == PlannedEntry(w, p.0)
    ensures forall p :: p in GenerateFrom(g, cs, w).entries ==> p.1 == PlannedEntry(w, p.0)
    decreases |cs|
  {
    if cs != [] {
      var g' := GenerateStep(g, cs[0], w);
      GenerateStepEffects(g, cs[0], w, g');
      assert w.objects(g.events, cs[0]) == w.objects([], cs[0]);
      if w.objects([], cs[0]).Success? {
        PutSpec(g.entries, cs[0], PlannedEntry(w, cs[0]));
      }
      if g'.failure.None? {
        GenerationPlans(g', cs[1..], w);
      }
    }
  }

  /** One successful replay step of a generated entry, in any container: it boots the
      class exactly when the entry asks for it and makes exactly the registrations the
      entry carries. */
  lemma ReplayStepActs(r: Replay, c: Class, e: Entry, w: World)
    requires r.failure.None? && Shaped(e) && ReplayStep(r, c, e, w).failure.None?
    ensures BootsOf(ReplayStep(r, c, e, w).events) == BootsOf(r.events) + (if e.boot then [c] else [])
    ensures RegistrationsOf(ReplayStep(r, c, e, w).events) == RegistrationsOf(r.events) + CapabilityEvents(e)
  {
    var r' := ReplayStep(r, c, e, w);
    ReplayStepEffects(r, c, e, w, r');
    var bound := r.events + CapabilityEvents(e);
    if e.init {
      assert r'.events == bound + ([Got(c)] + BootEvents(c, e));
      EntryCalls(r.events, c, e, [Got(c)] + BootEvents(c, e));
    } else {
      assert r'.events == bound + BootEvents(c, e);
      EntryCalls(r.events, c, e, BootEvents(c, e));
    }
  }

  /** One replay step for a planned entry of a sound class in a history-independent
      container: it does not fail, boots the class exactly when the entry asks for it and
      makes exactly the registrations the entry carries. */
  lemma ReplayStepCalls(r: Replay, c: Class, w: World)
    requires HistoryIndependent(w) && r.failure.None?
    requires w.objects([], c).Success? && (PlannedEntry(w, c).boot ==> w.boots([], c).None?)
    ensures ReplayStep(r, c, PlannedEntry(w, c), w).failure.None?
    ensures BootsOf(ReplayStep(r, c, PlannedEntry(w, c), w).events) ==
            BootsOf(r.events) + (if PlannedEntry(w, c).boot then [c] else [])
    ensures RegistrationsOf(ReplayStep(r, c, PlannedEntry(w, c), w).events) ==
            RegistrationsOf(r.events) + CapabilityEvents(PlannedEntry(w, c))
  {
    var e := PlannedEntry(w, c);
    var r' := ReplayStep(r, c, e, w);
    ReplayStepEffects(r, c, e, w, r');
    var bound := r.events + CapabilityEvents(e);
    if e.init {
      assert w.objects(bound, c) == w.objects([], c);
      assert w.boots(bound + [Got(c)], c) == w.boots([], c);
    }
    ReplayStepActs(r, c, e, w);
  }

  /** Replaying planned entries of sound classes in a history-independent container never
      fails, boots the classes whose entries ask for it and registers the bindings the
      entries carry, in key order. */
  lemma {:induction false} ReplayCalls(r: Replay, es: OrderedMap<Class, Entry>, w: World)
    requires HistoryIndependent(w) && r.failure.None?
    requires forall p :: p in es ==> p.1 == PlannedEntry(w, p.0)
    requires Sound(Keys(es), w)
    ensures ReplayFrom(r, es, w).failure.None?
    ensures BootsOf(ReplayFrom(r, es, w).events) == BootsOf(r.events) + PlannedBoots(Keys(es), w)
    ensures RegistrationsOf(ReplayFrom(r, es, w).events) ==
            RegistrationsOf(r.events) + PlannedRegistrations(Keys(es), w)
    decreases |es|
  {
    if es != [] {
      var c := es[0].0;
      assert es[0] in es;
      assert Keys(es) == [c] + Keys(es[1..]);
      assert c in Keys(es);
      ReplayStepCalls(r, c, w);
      var r' := ReplayStep(r, c, PlannedEntry(w, c), w);
      ReplayStepEffects(r, c, PlannedEntry(w, c), w, r');
      assert ReplayFrom(r, es, w) == ReplayFrom(r', es[1..], w);
      assert forall p :: p in es[1..] ==> p in es;
      ReplayCalls(r', es[1..], w);
      var e := PlannedEntry(w, c);
      AppendAssociative(BootsOf(r.events), if e.boot then [c] else [], PlannedBoots(Keys(es[1..]), w));
      AppendAssociative(RegistrationsOf(r.events), CapabilityEvents(e), PlannedRegistrations(Keys(es[1..]), w));
    }
  }

  /** The classes a list of schema entries asks to boot, in order. */
  function EntriesBoots(es: OrderedMap<Class, Entry>): seq<Class> {
    if es == [] then [] else (if es[0].1.boot then [es[0].0] else []) + EntriesBoots(es[1..])
  }

  /** The registrations a list of schema entries carries, in order. */
  function EntriesRegistrations(es: OrderedMap<Class, Entry>): seq<Event> {
    if es == [] then [] else CapabilityEvents(es[0].1) + EntriesRegistrations(es[1..])
  }

  /** In any container, a successful generation run over classes that are not repeated
      and not yet in the schema appends one entry per class, and boots and registers
      exactly what the appended entries say, in order. */
  lemma {:induction false} GenerationActs(g: Generation, cs: seq<Class>, w: World)
    requires g.failure.None? && GenerateFrom(g, cs, w).failure.None?
    requires Distinct(cs) && forall c :: c in cs ==> c !in Keys(g.entries)
    ensures var G := GenerateFrom(g, cs, w);
      && |g.entries| <= |G.entries| && G.entries[..|g.entries|] == g.entries
      && BootsOf(G.events) == BootsOf(g.events) + EntriesBoots(G.entries[|g.entries|..])
      && RegistrationsOf(G.events) == RegistrationsOf(g.events) + EntriesRegistrations(G.entries[|g.entries|..])
    decreases |cs|
  {
    if cs == [] {
      assert g.entries[|g.entries|..] == [];
    } else {
      var c := cs[0];
      var g' := GenerateStep(g, c, w);
      assert GenerateFrom(g, cs, w) == GenerateFrom(g', cs[1..], w);
      assert g'.failure.None?;
      GenerateStepActs(g, c, w);
      var e := EntryOf(w.objects(g.events, c).value);
      assert c in cs;
      PutSpec(g.entries, c, e);
      assert g'.entries == g.entries + [(c, e)];
      KeysAppend(g.entries, [(c, e)]);
      assert Keys(g'.entries) == Keys(g.entries) + [c];
      DistinctTail(cs);
      GenerationActs(g', cs[1..], w);
      var G := GenerateFrom(g', cs[1..], w);
      var k := |g.entries|;
      SplitAfter(G.entries, g.entries, (c, e));
      assert G.entries[k..][0] == (c, e) && G.entries[k..][1..] == G.entries[k + 1..];
      AppendAssociative(BootsOf(g.events), if e.boot then [c] else [], EntriesBoots(G.entries[k + 1..]));
      AppendAssociative(RegistrationsOf(g.events), CapabilityEvents(e), EntriesRegistrations(G.entries[k + 1..]));
    }
  }

  /** In any container, a successful replay of generated entries boots and registers
      exactly what the entries say, in key order. */
  lemma {:induction false} ReplayActs(r: Replay, es: OrderedMap<Class, Entry>, w: World)
    requires r.failure.None? && ReplayFrom(r, es, w).failure.None?
    requires forall p :: p in es ==> Shaped(p.1)
    ensures BootsOf(ReplayFrom(r, es, w).events) == BootsOf(r.events) + EntriesBoots(es)
    ensures RegistrationsOf(ReplayFrom(r, es, w).events) == RegistrationsOf(r.events) + EntriesRegistrations(es)
    decreases |es|
  {
    if es != [] {
      var (c, e) := es[0];
      assert es[0] in es;
      var r' := ReplayStep(r, c, e, w);
      assert ReplayFrom(r, es, w) == ReplayFrom(r', es[1..], w);
      assert r'.failure.None?;
      ReplayStepActs(r, c, e, w);
      assert forall p :: p in es[1..] ==> p in es;
      ReplayActs(r', es[1..], w);
      AppendAssociative(BootsOf(r.events), if e.boot then [c] else [], EntriesBoots(es[1..]));
      AppendAssociative(RegistrationsOf(r.events), CapabilityEvents(e), EntriesRegistrations(es[1..]));
    }
  }

  /** Cache fidelity in any container. For a list without repeated classes, when both
      generation and the replay of its schema succeed, each processes the list and each
      boots and registers exactly what the schema's entries say: generation calls `get`
      before registering a bootloader's bindings and replay after, but the boots and
      registrations are the same. */
  lemma ReplayActsAsGeneration(
    cs: seq<Class>, w: World, p1: seq<Class>, h1: seq<Event>, p2: seq<Class>, h2: seq<Event>)
    requires Distinct(cs)
    requires GenerateFrom(Generation(p1, h1, [], None), cs, w).failure.None?
    requires ReplayFrom(Replay(p2, h2, None), GenerateFrom(Generation(p1, h1, [], None), cs, w).entries, w).failure.None?
    ensures var G := GenerateFrom(Generation(p1, h1, [], None), cs, w);
      var R := ReplayFrom(Replay(p2, h2, None), G.entries, w);
      && G.processed == p1 + cs && R.processed == p2 + cs
      && BootsOf(G.events) == BootsOf(h1) + EntriesBoots(G.entries)
      && BootsOf(R.events) == BootsOf(h2) + EntriesBoots(G.entries)
      && RegistrationsOf(G.events) == RegistrationsOf(h1) + EntriesRegistrations(G.entries)
      && RegistrationsOf(R.events) == RegistrationsOf(h2) + EntriesRegistrations(G.entries)
  {
    var g := Generation(p1, h1, [], None);
    var G := GenerateFrom(g, cs, w);
    var r := Replay(p2, h2, None);
    GenerateProcesses(g, cs, w);
    assert Keys(g.entries) == [];
    GenerationActs(g, cs, w);
    assert G.entries[0..] == G.entries;
    GeneratedEntriesShaped(g, cs, w);
    ReplayActs(r, G.entries, w);
    ReplayProcesses(r, G.entries, w);
    GeneratedKeys(g, cs, w);
    FirstOccurrencesOfDistinct(cs);
  }

  /** Cache fidelity. In a history-independent container, replaying the schema that a
      successful generation built never fails; it processes the input's classes in order
      of first occurrence and, class by class, makes the same registrations and boots the
      same classes, except that a class repeated in the input is replayed only once. */
  lemma ReplayReproducesGeneration(
    cs: seq<Class>, w: World, p1: seq<Class>, h1: seq<Event>, p2: seq<Class>, h2: seq<Event>)
    requires HistoryIndependent(w)
    requires GenerateFrom(Generation(p1, h1, [], None), cs, w).failure.None?
    ensures var G := GenerateFrom(Generation(p1, h1, [], None), cs, w);
      var R := ReplayFrom(Replay(p2, h2, None), G.entries, w);
      && R.failure.None?
      && G.processed == p1 + cs
      && R.processed == p2 + FirstOccurrences(cs)
      && BootsOf(G.events) == BootsOf(h1) + PlannedBoots(cs, w)
      && BootsOf(R.events) == BootsOf(h2) + PlannedBoots(FirstOccurrences(cs), w)
      && RegistrationsOf(G.events) == RegistrationsOf(h1) + PlannedRegistrations(cs, w)
      && RegistrationsOf(R.events) == RegistrationsOf(h2) + PlannedRegistrations(FirstOccurrences(cs), w)
  {
    var g := Generation(p1, h1, [], None);
    var G := GenerateFrom(g, cs, w);
    var r := Replay(p2, h2, None);
    GenerateProcesses(g, cs, w);
    GenerationCalls(g, cs, w);
    GenerationPlans(g, cs, w);
    GeneratedKeys(g, cs, w);
    assert Keys(G.entries) == FirstOccurrences(cs);
    AddNewProperties([], cs);
    ReplayCalls(r, G.entries, w);
    ReplayProcesses(r, G.entries, w);
  }

  /** With no class repeated, replay and generation agree exactly on the classes
      processed, the bindings registered and the classes booted. */
  lemma ReplayOfDistinctInput(
    cs: seq<Class>, w: World, p1: seq<Class>, h1: seq<Event>, p2: seq<Class>, h2: seq<Event>)
    requires HistoryIndependent(w) && Distinct(cs)
    requires GenerateFrom(Generation(p1, h1, [], None), cs, w).failure.None?
    ensures var G := GenerateFrom(Generation(p1, h1, [], None), cs, w);
      var R := ReplayFrom(Replay(p2, h2, None), G.entries, w);
      && R.failure.None?
      && G.processed == p1 + cs && R.processed == p2 + cs
      && BootsOf(G.events) == BootsOf(h1) + PlannedBoots(cs, w)
      && BootsOf(R.events) == BootsOf(h2) + PlannedBoots(cs, w)
      && RegistrationsOf(G.events) == RegistrationsOf(h1) + PlannedRegistrations(cs, w)
      && RegistrationsOf(R.events) == RegistrationsOf(h2) + PlannedRegistrations(cs, w)
  {
    ReplayReproducesGeneration(cs, w, p1, h1, p2, h2);
    FirstOccurrencesOfDistinct(cs);
  }

  /** A plain class listed twice is constructed twice when the schema is generated and
      once when it is replayed. */
  lemma RepeatedClassReplayedOnce(c: Class, w: World)
    requires HistoryIndependent(w) && w.objects([], c) == Success(Plain)
    ensures var G := GenerateFrom(Generation([], [], [], None), [c, c], w);
      var R := ReplayFrom(Replay([], [], None), G.entries, w);
      && G.failure.None? && G.processed == [c, c] && G.events == [Got(c), Got(c)]
      && R.failure.None? && R.processed == [c] && R.events == [Got(c)]
  {
    var g0 := Generation([], [], [], None);
    assert w.objects([], c) == w.objects([Got(c)], c);
    var g1 := GenerateStep(g0, c, w);
    GenerateStepEffects(g0, c, w, g1);
    assert g1 == Generation([c], [Got(c)], [(c, Entry(true, false, None))], None);
    var g2 := GenerateStep(g1, c, w);
    GenerateStepEffects(g1, c, w, g2);
    assert g2 == Generation([c, c], [Got(c), Got(c)], [(c, Entry(true, false, None))], None);
    assert [c, c][1..] == [c];
    assert GenerateFrom(g0, [c, c], w) == GenerateFrom(g1, [c], w) == GenerateFrom(g2, [], w);
    var r0 := Replay([], [], None);
    var r1 := ReplayStep(r0, c, Entry(true, false, None), w);
    ReplayStepEffects(r0, c, Entry(true, false, None), w, r1);
    assert r1 == Replay([c], [Got(c)], None);
  }

  /** Registering before `get` changes what replay can meet: a bootloader whose
      construction fails once its own binding is registered is generated and booted
      without error, yet replaying its schema fails before the boot. */
  lemma RegisteringFirstCanFail(c: Class, a: Alias, res: Resolver, err: Error, w: World)
    requires forall h :: Bound(a, res) in h ==> w.objects(h, c) == Failure(err)
    requires forall h :: Bound(a, res) !in h ==> w.objects(h, c) == Success(Configuring(Bootloader(true, [(a, res)], [])))
    requires forall h :: w.boots(h, c).None?
    ensures var G := GenerateFrom(Generation([], [], [], None), [c], w);
      var R := ReplayFrom(Replay([], [], None), G.entries, w);
      && G.failure.None? && BootsOf(G.events) == [c]
      && R.failure == Some(err) && BootsOf(R.events) == []
  {
    var e := Entry(true, true, Some(Capabilities([(a, res)], [])));
    assert BindingEvents([(a, res)]) == [Bound(a, res)] by {
      assert [(a, res)][..0] == [];
    }
    assert CapabilityEvents(e) == [Bound(a, res)];
    var g0 := Generation([], [], [], None);
    var g1 := GenerateStep(g0, c, w);
    GenerateStepEffects(g0, c, w, g1);
    assert g1.events == [Got(c), Bound(a, res), Booted(c)] && g1.entries == [(c, e)];
    assert GenerateFrom(g0, [c], w) == GenerateFrom(g1, [], w);
    assert BootsOf(g1.events) == [c] by {
      assert [Booted(c)][1..] == [];
      assert BootsOf([Booted(c)]) == [c];
      assert [Bound(a, res), Booted(c)][1..] == [Booted(c)];
      assert BootsOf([Bound(a, res), Booted(c)]) == [c];
      assert g1.events[1..] == [Bound(a, res), Booted(c)];
    }
    var r0 := Replay([], [], None);
    var r1 := ReplayStep(r0, c, e, w);
    ReplayStepEffects(r0, c, e, w, r1);
    assert r1.events == [Bound(a, res), Got(c)] && r1.failure == Some(err);
    assert ReplayFrom(r0, [(c, e)], w) == ReplayFrom(r1, [], w);
    assert BootsOf(r1.events) == [] by {
      assert [Got(c)][1..] == [];
      assert BootsOf([Got(c)]) == [];
      assert r1.events[1..] == [Got(c)];
    }
  }

  /** The calls `get` makes for each class of `cs`, in order. */
  function GotEach(cs: seq<Class>): seq<Event> {
    if cs == [] then [] else [Got(cs[0])] + GotEach(cs[1..])
  }

  /** The entry generation records for a bootloader that overrides nothing. */
  const DefaultEntry: Entry := Entry(false, false, Some(Capabilities([], [])))

  /** Bootloaders that override nothing are constructed during generation and nothing
      else: no binding, no boot, and each is recorded as not to be constructed. */
  lemma {:induction false} DefaultBootloadersOnlyConstructed(g: Generation, cs: seq<Class>, w: World)
    requires g.failure.None?
    requires forall h, c :: c in cs ==> w.objects(h, c) == Success(Configuring(Default))
    ensures var G := GenerateFrom(g, cs, w);
      && G.failure.None?
      && G.processed == g.processed + cs
      && G.events == g.events + GotEach(cs)
      && forall p :: p in G.entries ==> p in g.entries || p.1 == DefaultEntry
    decreases |cs|
  {
    if cs != [] {
      var c := cs[0];
      assert c in cs;
      assert w.objects(g.events, c) == Success(Configuring(Default));
      assert EntryOf(Configuring(Default)) == DefaultEntry;
      assert CapabilityEvents(DefaultEntry) == [];
      var g' := GenerateStep(g, c, w);
      assert g' == Generation(g.processed + [c], g.events + [Got(c)], Put(g.entries, c, DefaultEntry), None);
      PutSpec(g.entries, c, DefaultEntry);
      assert forall x :: x in cs[1..] ==> x in cs;
      DefaultBootloadersOnlyConstructed(g', cs[1..], w);
      assert cs == [c] + cs[1..];
      AppendAssociative(g.processed, [c], cs[1..]);
      AppendAssociative(g.events, [Got(c)], GotEach(cs[1..]));
    }
  }

  /** Replaying entries of bootloaders that override nothing makes no container call at
      all: the class is recorded as processed and not even constructed. */
  lemma {:induction false} DefaultEntriesReplaySilently(r: Replay, es: OrderedMap<Class, Entry>, w: World)
    requires r.failure.None?
    requires forall p :: p in es ==> p.1 == DefaultEntry
    ensures ReplayFrom(r, es, w) == Replay(r.processed + Keys(es), r.events, None)
    decreases |es|
  {
    if es != [] {
      assert es[0] in es;
      assert CapabilityEvents(DefaultEntry) == [];
      var r' := ReplayStep(r, es[0].0, es[0].1, w);
      ReplayStepEffects(r, es[0].0, es[0].1, w, r');
      assert r' == Replay(r.processed + [es[0].0], r.events, None);
      assert forall p :: p in es[1..] ==> p in es;
      DefaultEntriesReplaySilently(r', es[1..], w);
      assert Keys(es) == [es[0].0] + Keys(es[1..]);
      assert r.processed + Keys(es) == r'.processed + Keys(es[1..]);
    }
  }

  /** Cache reuse: after a `bootload` call that generated and saved a schema, a second call
      with the same list and section replays that schema without generating, and touches
      the store only to read it. */
  lemma CacheReuse(
    cs: seq<Class>, section: Option<string>, stored: map<string, Schema>, w: World,
    p1: seq<Class>, h1: seq<Event>, p2: seq<Class>, h2: seq<Event>)
    requires Enabled(section)
    requires !Plans.Bootload(cs, section, stored, p1, h1, w).replayed
    requires Plans.Bootload(cs, section, stored, p1, h1, w).status.Ok?
    ensures var o1 := Plans.Bootload(cs, section, stored, p1, h1, w);
      var o2 := Plans.Bootload(cs, section, o1.stored, p2, h2, w);
      && o2.replayed
      && o2.accesses == [Load(section.value)]
      && o2.stored == o1.stored
      && o1.stored[section.value].bootloaders == GenerateFrom(Generation(p1, h1, [], None), cs, w).entries
  {
  }

  /** In a history-independent container the reused schema also replays without error,
      processing the list's classes in order of first occurrence. */
  lemma CacheReuseSucceeds(
    cs: seq<Class>, section: Option<string>, stored: map<string, Schema>, w: World,
    p1: seq<Class>, h1: seq<Event>, p2: seq<Class>, h2: seq<Event>)
    requires Enabled(section) && HistoryIndependent(w)
    requires !Plans.Bootload(cs, section, stored, p1, h1, w).replayed
    requires Plans.Bootload(cs, section, stored, p1, h1, w).status.Ok?
    ensures var o1 := Plans.Bootload(cs, section, stored, p1, h1, w);
      var o2 := Plans.Bootload(cs, section, o1.stored, p2, h2, w);
      && o2.status == Ok
      && o2.processed == p2 + FirstOccurrences(cs)
  {
    CacheReuse(cs, section, stored, w, p1, h1, p2, h2);
    ReplayReproducesGeneration(cs, w, p1, h1, p2, h2);
  }
}

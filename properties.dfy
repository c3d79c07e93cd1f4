/**
  What the runtime promises, proved about the functions of Semantics: what
  every run of user code preserves, how reads are attributed to the running
  effect, how `trigger` dispatches, when a watch callback fires, and what the
  reference accessors do.
 */
module Properties {
  import opened Values
  import opened Store
  import opened Semantics

  // ---------------------------------------------------------------------------
  // The invariant of the process-wide state.

  /** An effect's runner keeps its body, options and flags; only `deps` grows. */
  ghost predicate SameEffect(x: EffectRec, y: EffectRec)
  {
    y == x.(deps := y.deps) && x.deps <= y.deps
  }

  predicate HasWatchJob(x: EffectRec)
  {
    x.options.Some? && x.options.value.job.Some? && x.options.value.job.value.WatchJob?
  }

  /** The state the runtime keeps between (and during) calls: the active effect
      is the top of the stack, every id the state stores names an existing
      effect or watcher, and every subscriber set holds an effect at most once. */
  ghost predicate Valid(st: State)
  {
    ActiveIsTop(st) &&
    (forall i | 0 <= i < |st.stack| :: st.stack[i] < |st.effects|) &&
    NoDuplicates(st.targets) &&
    (forall s, k, e: EffectId | Subscribed(st.targets, s, k, e) :: e < |st.effects|) &&
    (forall w | 0 <= w < |st.watchers| :: st.watchers[w].runner < |st.effects|) &&
    (forall i | 0 <= i < |st.effects| && HasWatchJob(st.effects[i]) ::
       st.effects[i].options.value.job.value.w < |st.watchers|) &&
    DepsMirror(st.targets, st.effects)
  }

  /** Each effect's `deps` lists, once each, exactly the subscriber sets of
      the store it is a member of: `track` adds the set to `deps` exactly when
      it adds the effect to the set. */
  ghost predicate DepsMirror(t: Targets, effects: seq<EffectRec>)
  {
    (forall e: EffectId, d | e < |effects| && d in effects[e].deps :: Subscribed(t, d.s, d.k, e)) &&
    (forall e: EffectId, s, k | e < |effects| && Subscribed(t, s, k, e) :: DepLoc(s, k) in effects[e].deps) &&
    (forall e | 0 <= e < |effects| :: Distinct(effects[e].deps))
  }

  /** Every callback invocation recorded from position `from` on had a new
      value strictly different from the old one. */
  ghost predicate ChangesOnly(log: seq<Event>, from: nat)
  {
    forall j | from <= j < |log| :: log[j].newVal != log[j].oldVal
  }

  /** How a run of user code may change the state: the store only grows,
      effects keep everything but their growing `deps`, watchers keep their
      callback and runner, callback invocations are only appended and each is
      for a real change, and a valid state stays valid. */
  ghost predicate Evolves(a: State, b: State)
  {
    Grows(a.targets, b.targets) &&
    |b.effects| == |a.effects| &&
    (forall i | 0 <= i < |a.effects| :: SameEffect(a.effects[i], b.effects[i])) &&
    |b.watchers| == |a.watchers| &&
    (forall w | 0 <= w < |a.watchers| ::
       b.watchers[w].cb == a.watchers[w].cb && b.watchers[w].runner == a.watchers[w].runner) &&
    a.log <= b.log && ChangesOnly(b.log, |a.log|) &&
    (Valid(a) && b.stack == a.stack ==> Valid(b))
  }

  lemma EvolvesReflexive(st: State)
    ensures Evolves(st, st)
  {
    GrowsReflexive(st.targets);
  }

  lemma EvolvesTransitive(a: State, b: State, c: State)
    requires Evolves(a, b) && Evolves(b, c)
    requires b.stack == a.stack && c.stack == b.stack
    ensures Evolves(a, c)
  {
    GrowsTransitive(a.targets, b.targets, c.targets);
    forall i | 0 <= i < |a.effects|
      ensures SameEffect(a.effects[i], c.effects[i])
    {
      assert SameEffect(b.effects[i], c.effects[i]);
    }
  }

  /** `track` keeps a valid state valid: the effect it subscribes is the active
      one, which is on the stack and so exists. */
  lemma {:induction false} TrackEvolves(st: State, s: ObjectId, k: Value)
    ensures Evolves(st, Track(st, s, k))
  {
    TrackKeepsEffects(st, s, k);
    if Valid(st) && st.active.Some? {
      TrackValid(st, s, k);
    }
  }

  /** `track` from a valid state inside an effect ends in a valid state. */
  lemma TrackValid(st: State, s: ObjectId, k: Value)
    requires Valid(st) && st.active.Some?
    ensures Valid(Track(st, s, k))
  {
    var r := Track(st, s, k);
    TrackSubscribesExisting(st, s, k);
    TrackMirrors(st, s, k);
    TrackKeepsJobs(st, s, k);
  }

  /** `track` changes no effect's options, so every watch job still names an
      existing watcher. */
  lemma TrackKeepsJobs(st: State, s: ObjectId, k: Value)
    requires forall i | 0 <= i < |st.effects| && HasWatchJob(st.effects[i]) ::
      st.effects[i].options.value.job.value.w < |st.watchers|
    ensures var r := Track(st, s, k);
      forall i | 0 <= i < |r.effects| && HasWatchJob(r.effects[i]) ::
        r.effects[i].options.value.job.value.w < |r.watchers|
  {
    var r := Track(st, s, k);
    assert forall i | 0 <= i < |r.effects| :: r.effects[i].options == st.effects[i].options;
  }

  /** `track` changes no effect but the active one, and that one only by
      growing its `deps`. */
  lemma TrackKeepsEffects(st: State, s: ObjectId, k: Value)
    ensures |Track(st, s, k).effects| == |st.effects|
    ensures forall i | 0 <= i < |st.effects| :: SameEffect(st.effects[i], Track(st, s, k).effects[i])
  {
    var r := Track(st, s, k);
    forall i | 0 <= i < |st.effects|
      ensures SameEffect(st.effects[i], r.effects[i])
    {
      if Some(i) == st.active {
        assert st.effects[i].deps <= r.effects[i].deps;
      }
    }
  }

  /** In a valid state `track` only subscribes existing effects: the one it
      adds is the active one, which is on the stack. */
  lemma TrackSubscribesExisting(st: State, s: ObjectId, k: Value)
    requires Valid(st) && st.active.Some?
    ensures forall s', k', e': EffectId | Subscribed(Track(st, s, k).targets, s', k', e') :: e' < |st.effects|
  {
    var r := Track(st, s, k);
    var e := st.active.value;
    assert e == st.stack[|st.stack| - 1];
    forall s', k', e': EffectId | Subscribed(r.targets, s', k', e')
      ensures e' < |st.effects|
    {
      if (s', k') != (s, k) || Subscribed(st.targets, s, k, e) {
        assert Subscribed(st.targets, s', k', e');
      } else {
        assert e' in Members(st.targets, s, k) + [e];
        if e' != e {
          assert Subscribed(st.targets, s, k, e');
        }
      }
    }
  }

  /** In a valid state `track` keeps every effect's `deps` in step with the
      store: the set is recorded in the active effect's `deps` exactly when
      the effect joins it. */
  lemma TrackMirrors(st: State, s: ObjectId, k: Value)
    requires Valid(st) && st.active.Some?
    ensures DepsMirror(Track(st, s, k).targets, Track(st, s, k).effects)
  {
    var r := Track(st, s, k);
    var e0 := st.active.value;
    assert e0 == st.stack[|st.stack| - 1];
    var joins := !Subscribed(st.targets, s, k, e0);
    forall e: EffectId, d | e < |r.effects| && d in r.effects[e].deps
      ensures Subscribed(r.targets, d.s, d.k, e)
    {
      if d in st.effects[e].deps {
        SubscribedAfterGrowth(st.targets, r.targets, d.s, d.k, e);
      }
    }
    forall e: EffectId, s', k' | e < |r.effects| && Subscribed(r.targets, s', k', e)
      ensures DepLoc(s', k') in r.effects[e].deps
    {
      if !Subscribed(st.targets, s', k', e) {
        assert (s', k') == (s, k) && Members(r.targets, s, k) == Members(st.targets, s, k) + [e0];
      }
    }
    forall e | 0 <= e < |r.effects|
      ensures Distinct(r.effects[e].deps)
    {
      if e == e0 && joins {
        assert DepLoc(s, k) !in st.effects[e0].deps;
      }
    }
  }

  /** A new effect has no `deps` and, the store naming only existing effects,
      is in no subscriber set. */
  lemma CreateEffectMirrors(st: State, raw: Prog, options: Option<Options>)
    requires Valid(st)
    ensures DepsMirror(st.targets, CreateEffect(st, raw, options).effects)
  {
    var fx := CreateEffect(st, raw, options).effects;
    forall e: EffectId, s, k | e < |fx| && Subscribed(st.targets, s, k, e)
      ensures DepLoc(s, k) in fx[e].deps
    {
      assert fx[e] == st.effects[e];
    }
  }

  /** Entering and leaving a runner around a run that `Evolves` is itself a
      change that `Evolves`. */
  lemma {:induction false} EnterLeaveEvolves(st: State, e: EffectId, b: State)
    requires e < |st.effects|
    requires Evolves(Enter(st, e), b) && b.stack == st.stack + [e]
    ensures Evolves(st, Leave(b)) && Leave(b).stack == st.stack
  {
    assert b.stack[..|b.stack| - 1] == st.stack;
    if Valid(st) {
      assert Valid(Enter(st, e));
      assert Valid(b);
    }
  }

  /** Every member of the running family changes the state only as `Evolves`
      allows; the proofs follow the recursion of the functions. */
  lemma {:induction false} ExecEvolves(st: State, p: Prog, i: nat, acc: Value, fuel: nat)
    requires i <= |p|
    ensures Evolves(st, Exec(st, p, i, acc, fuel).st)
    decreases fuel, 7, |p| - i
  {
    if i == |p| {
      EvolvesReflexive(st);
    } else {
      var o := Step(st, p[i], fuel);
      StepEvolves(st, p[i], fuel);
      if o.res.Ok? {
        ExecEvolves(o.st, p, i + 1, o.res.value, fuel);
        EvolvesTransitive(st, o.st, Exec(o.st, p, i + 1, o.res.value, fuel).st);
      }
    }
  }

  lemma {:induction false} StepEvolves(st: State, ins: Instr, fuel: nat)
    ensures Evolves(st, Step(st, ins, fuel).st)
    decreases fuel, 6
  {
    match ins
    case Const(v) => EvolvesReflexive(st);
    case Read(n) =>
      if n < |st.refs| { TrackEvolves(st, RefObject(n), ValueKey); } else { EvolvesReflexive(st); }
    case Write(n, v) => SetValueEvolves(st, n, v, fuel);
    case Call(e) => RunEffectEvolves(st, e, fuel);
    case TrackKey(s, k) => TrackEvolves(st, s, k);
    case TriggerKey(s, k) => TriggerEvolves(st, s, k, fuel);
    case Throw => EvolvesReflexive(st);
  }

  lemma {:induction false} SetValueEvolves(st: State, n: nat, v: Value, fuel: nat)
    ensures Evolves(st, SetValue(st, n, v, fuel).st)
    decreases fuel, 5
  {
    if n >= |st.refs| {
      EvolvesReflexive(st);
    } else {
      var a := Assign(st, n, v);
      EvolvesReflexive(st);
      assert Evolves(st, a);
      TriggerEvolves(a, RefObject(n), ValueKey, fuel);
      EvolvesTransitive(st, a, SetValue(st, n, v, fuel).st);
    }
  }

  lemma {:induction false} TriggerEvolves(st: State, s: ObjectId, k: Value, fuel: nat)
    ensures Evolves(st, Trigger(st, s, k, fuel).st)
    decreases fuel, 4
  {
    match Lookup(st.targets, s, k)
    case Err(_) => EvolvesReflexive(st);
    case Ok(subs) => TriggerEachEvolves(st, subs, 0, fuel);
  }

  lemma {:induction false} TriggerEachEvolves(st: State, subs: seq<EffectId>, i: nat, fuel: nat)
    requires i <= |subs|
    ensures Evolves(st, TriggerEach(st, subs, i, fuel).st)
    decreases fuel, 3, |subs| - i
  {
    if i == |subs| {
      EvolvesReflexive(st);
    } else {
      var o := Notify(st, subs[i], fuel);
      NotifyEvolves(st, subs[i], fuel);
      if o.res.Ok? {
        TriggerEachEvolves(o.st, subs, i + 1, fuel);
        EvolvesTransitive(st, o.st, TriggerEach(o.st, subs, i + 1, fuel).st);
      }
    }
  }

  lemma {:induction false} NotifyEvolves(st: State, e: EffectId, fuel: nat)
    ensures Evolves(st, Notify(st, e, fuel).st)
    decreases fuel, 2
  {
    if e >= |st.effects| || st.effects[e].options.None? {
      EvolvesReflexive(st);
    } else {
      match st.effects[e].options.value.job
      case None => RunEffectEvolves(st, e, fuel);
      case Some(WatchJob(w)) => RunJobEvolves(st, w, fuel);
      case Some(CustomJob(body)) =>
        if fuel == 0 {
          EvolvesReflexive(st);
        } else {
          ExecEvolves(st, body, 0, Undefined, fuel - 1);
        }
    }
  }

  lemma {:induction false} RunJobEvolves(st: State, w: nat, fuel: nat)
    ensures Evolves(st, RunJob(st, w, fuel).st)
    decreases fuel, 1
  {
    if w >= |st.watchers| {
      EvolvesReflexive(st);
    } else {
      var watcher := st.watchers[w];
      var o := RunEffect(st, watcher.runner, fuel);
      RunEffectEvolves(st, watcher.runner, fuel);
      if o.res.Ok? && watcher.cb.Some? && o.st.watchers[w].oldVal != o.res.value && fuel > 0 {
        var called := o.st.(log := o.st.log + [Called(w, o.res.value, o.st.watchers[w].oldVal)]);
        var c := Exec(called, watcher.cb.value, 0, Undefined, fuel - 1);
        var fin := c.st.(watchers := c.st.watchers[w := c.st.watchers[w].(oldVal := o.res.value)]);
        assert RunJob(st, w, fuel).st == if c.res.Ok? then fin else c.st;
        CallbackEvolves(o.st, w, watcher.cb.value, o.res.value, fuel);
        EvolvesTransitive(st, o.st, RunJob(st, w, fuel).st);
      }
    }
  }

  /** The part of the job after the runner returned a changed value: record
      the call, run the callback and, when it succeeds, update `oldVal`. */
  lemma {:induction false} CallbackEvolves(mid: State, w: nat, cb: Prog, newVal: Value, fuel: nat)
    requires w < |mid.watchers| && mid.watchers[w].oldVal != newVal && fuel > 0
    ensures var called := mid.(log := mid.log + [Called(w, newVal, mid.watchers[w].oldVal)]);
      var c := Exec(called, cb, 0, Undefined, fuel - 1);
      c.st.stack == mid.stack && Evolves(mid, c.st) &&
      (c.res.Ok? ==> Evolves(mid, c.st.(watchers := c.st.watchers[w := c.st.watchers[w].(oldVal := newVal)])))
    decreases fuel, 0
  {
    var called := mid.(log := mid.log + [Called(w, newVal, mid.watchers[w].oldVal)]);
    CallbackRecordEvolves(mid, Called(w, newVal, mid.watchers[w].oldVal));
    var c := Exec(called, cb, 0, Undefined, fuel - 1);
    ExecEvolves(called, cb, 0, Undefined, fuel - 1);
    EvolvesTransitive(mid, called, c.st);
    if c.res.Ok? {
      OldValUpdateEvolves(c.st, w, newVal);
      EvolvesTransitive(mid, c.st, c.st.(watchers := c.st.watchers[w := c.st.watchers[w].(oldVal := newVal)]));
    }
  }

  /** Recording a callback call for a real change is an allowed change. */
  lemma CallbackRecordEvolves(st: State, ev: Event)
    requires ev.newVal != ev.oldVal
    ensures Evolves(st, st.(log := st.log + [ev]))
  {
    GrowsReflexive(st.targets);
  }

  /** Updating the `oldVal` a watcher keeps is an allowed change. */
  lemma OldValUpdateEvolves(st: State, w: nat, v: Value)
    requires w < |st.watchers|
    ensures Evolves(st, st.(watchers := st.watchers[w := st.watchers[w].(oldVal := v)]))
  {
    GrowsReflexive(st.targets);
    var r := st.(watchers := st.watchers[w := st.watchers[w].(oldVal := v)]);
    assert forall x | 0 <= x < |r.watchers| :: r.watchers[x].runner == st.watchers[x].runner;
  }

  lemma {:induction false} RunEffectEvolves(st: State, e: EffectId, fuel: nat)
    ensures Evolves(st, RunEffect(st, e, fuel).st)
    decreases fuel, 0
  {
    if e >= |st.effects| || fuel == 0 {
      EvolvesReflexive(st);
    } else {
      var entered := Enter(st, e);
      var o := Exec(entered, st.effects[e].raw, 0, Undefined, fuel - 1);
      ExecEvolves(entered, st.effects[e].raw, 0, Undefined, fuel - 1);
      EnterLeaveEvolves(st, e, o.st);
    }
  }

  // ---------------------------------------------------------------------------
  // The runner (effect.js:8-17)

  /** A read at the start of an effect's body subscribes that effect: while
      the body runs, the effect is the active one. */
  lemma {:induction false} FirstReadSubscribesRunner(st: State, e: EffectId, n: nat, fuel: nat)
    requires e < |st.effects| && n < |st.refs| && fuel > 0
    requires |st.effects[e].raw| > 0 && st.effects[e].raw[0] == Read(n)
    ensures Subscribed(RunEffect(st, e, fuel).st.targets, RefObject(n), ValueKey, e)
  {
    var raw := st.effects[e].raw;
    var entered := Enter(st, e);
    var t := Track(entered, RefObject(n), ValueKey);
    assert Subscribed(t.targets, RefObject(n), ValueKey, e);
    ExecFirstRead(entered, raw, n, fuel - 1);
    var o := Exec(t, raw, 1, st.refs[n], fuel - 1);
    ExecGrows(t, raw, 1, st.refs[n], fuel - 1);
    SubscribedAfterGrowth(t.targets, o.st.targets, RefObject(n), ValueKey, e);
    assert RunEffect(st, e, fuel) == Outcome(Leave(o.st), o.res);
  }

  /** A program that starts with a read: the read tracks and its value is
      what the rest of the program continues from. */
  lemma ExecFirstRead(st: State, p: Prog, n: nat, fuel: nat)
    requires |p| > 0 && p[0] == Read(n) && n < |st.refs|
    ensures Exec(st, p, 0, Undefined, fuel) ==
      Exec(Track(st, RefObject(n), ValueKey), p, 1, st.refs[n], fuel)
  {
    assert Step(st, p[0], fuel) == Outcome(Track(st, RefObject(n), ValueKey), Ok(st.refs[n]));
  }

  /** Running code never removes anything from the store. */
  lemma ExecGrows(st: State, p: Prog, i: nat, acc: Value, fuel: nat)
    requires i <= |p|
    ensures Grows(st.targets, Exec(st, p, i, acc, fuel).st.targets)
  {
    ExecEvolves(st, p, i, acc, fuel);
  }

  /** Nested attribution: an effect run inside another one attributes its
      reads to itself, and when it returns the outer effect is active again
      and its own later reads are attributed to it. Afterwards the stack and
      the active effect are what they were. */
  lemma {:induction false} NestedRunsAttributeReads(
    st: State, outer: EffectId, inner: EffectId, m: nat, n: nat, fuel: nat)
    requires ActiveIsTop(st)
    requires outer < |st.effects| && inner < |st.effects| && m < |st.refs| && n < |st.refs|
    requires st.effects[outer].raw == [Call(inner), Read(n)]
    requires st.effects[inner].raw == [Read(m)]
    requires fuel >= 2
    ensures var r := RunEffect(st, outer, fuel);
      r.res == Ok(st.refs[n]) &&
      Subscribed(r.st.targets, RefObject(m), ValueKey, inner) &&
      Subscribed(r.st.targets, RefObject(n), ValueKey, outer) &&
      r.st.stack == st.stack && r.st.active == st.active
  {
    var e1 := Enter(st, outer);
    // the inner run, entered from the outer one, leaves `outer` active again
    SingleReadRun(e1, inner, m, fuel - 1);
    var t2 := Track(Enter(e1, inner), RefObject(m), ValueKey);
    var back := Leave(t2);
    assert back.active == Some(outer) && back.stack == e1.stack && back.refs == st.refs;
    // the outer body's read, with `outer` active
    CallThenRead(e1, inner, n, fuel - 1);
    var t1 := Track(back, RefObject(n), ValueKey);
    assert RunEffect(st, outer, fuel) == Outcome(Leave(t1), Ok(st.refs[n]));
    SubscribedAfterGrowth(t2.targets, t1.targets, RefObject(m), ValueKey, inner);
  }

  /** Running the body `[Call(inner), Read(n)]`. */
  lemma CallThenRead(st: State, inner: EffectId, n: nat, fuel: nat)
    requires RunEffect(st, inner, fuel).res.Ok? && n < |st.refs|
    ensures var mid := RunEffect(st, inner, fuel);
      Exec(st, [Call(inner), Read(n)], 0, Undefined, fuel) ==
      Outcome(Track(mid.st, RefObject(n), ValueKey), Ok(mid.st.refs[n]))
  {
    var body := [Call(inner), Read(n)];
    var mid := RunEffect(st, inner, fuel);
    var t := Track(mid.st, RefObject(n), ValueKey);
    assert Step(st, body[0], fuel) == mid;
    assert Step(mid.st, body[1], fuel) == Outcome(t, Ok(mid.st.refs[n]));
    assert Exec(t, body, 2, mid.st.refs[n], fuel) == Outcome(t, Ok(mid.st.refs[n]));
    assert Exec(mid.st, body, 1, mid.res.value, fuel) == Outcome(t, Ok(mid.st.refs[n]));
  }

  /** Running an effect whose body is one read. */
  lemma SingleReadRun(st: State, e: EffectId, n: nat, fuel: nat)
    requires e < |st.effects| && n < |st.refs| && fuel >= 1
    requires st.effects[e].raw == [Read(n)]
    ensures RunEffect(st, e, fuel) ==
      Outcome(Leave(Track(Enter(st, e), RefObject(n), ValueKey)), Ok(st.refs[n]))
  {
    var t := Track(Enter(st, e), RefObject(n), ValueKey);
    assert Step(Enter(st, e), Read(n), fuel - 1) == Outcome(t, Ok(st.refs[n]));
    assert Exec(Enter(st, e), [Read(n)], 0, Undefined, fuel - 1) == Outcome(t, Ok(st.refs[n]));
  }

  /** A freshly created effect (effect.js:19-23). */
  lemma CreatedEffect(st: State, raw: Prog, options: Option<Options>)
    ensures var r := CreateEffect(st, raw, options);
      var x := r.effects[|st.effects|];
      x.active && x.isEffect && x.deps == [] && x.raw == raw && x.options == options &&
      r.effects[..|st.effects|] == st.effects
  {
  }

  // ---------------------------------------------------------------------------
  // track (effect.js:70-89)

  /** `track` is idempotent: repeating it changes nothing. */
  lemma TrackIdempotent(st: State, s: ObjectId, k: Value)
    ensures Track(Track(st, s, k), s, k) == Track(st, s, k)
  {
  }

  // ---------------------------------------------------------------------------
  // trigger (effect.js:92-109)

  /** The cases in which `trigger` runs no subscriber: an undefined key, and a
      key without a set under a tracked subject. A defined key of a subject
      that was never tracked dereferences `undefined` and fails instead. */
  lemma TriggerWithoutSubscribers(st: State, s: ObjectId, k: Value, fuel: nat)
    ensures k == Undefined ==> Trigger(st, s, k, fuel) == Outcome(st, Ok(Undefined))
    ensures k != Undefined && s in st.targets && k !in st.targets[s] ==>
      Trigger(st, s, k, fuel) == Outcome(st, Ok(Undefined))
    ensures k != Undefined && s !in st.targets ==>
      Trigger(st, s, k, fuel) == Outcome(st, Err(TypeError))
  {
  }

  /** How `trigger` treats one subscriber: its options' job when it has one,
      otherwise the effect itself, and a failure when it has no options. */
  lemma NotifyDispatch(st: State, e: EffectId, fuel: nat, w: nat, b: Prog)
    requires e < |st.effects|
    ensures st.effects[e].options.None? ==> Notify(st, e, fuel).res == Err(TypeError)
    ensures st.effects[e].options.Some? && st.effects[e].options.value.job.None? ==>
      Notify(st, e, fuel).st == RunEffect(st, e, fuel).st &&
      Notify(st, e, fuel).res ==
        (if RunEffect(st, e, fuel).res.Ok? then Ok(Undefined) else RunEffect(st, e, fuel).res)
    ensures st.effects[e].options.Some? && st.effects[e].options.value.job == Some(WatchJob(w)) ==>
      Notify(st, e, fuel) == RunJob(st, w, fuel)
    ensures st.effects[e].options.Some? && st.effects[e].options.value.job == Some(CustomJob(b)) ==>
      if fuel == 0 then Notify(st, e, fuel) == Outcome(st, Err(OutOfFuel))
      else
        Notify(st, e, fuel).st == Exec(st, b, 0, Undefined, fuel - 1).st &&
        Notify(st, e, fuel).res ==
          (if Exec(st, b, 0, Undefined, fuel - 1).res.Ok? then Ok(Undefined)
           else Exec(st, b, 0, Undefined, fuel - 1).res)
  {
  }

  // ---------------------------------------------------------------------------
  // The job of watch (effect.js:40-50)

  /** The change gate: with a callback, the job calls back and moves `oldVal`
      only when the runner's new value is strictly different from `oldVal`;
      when it is equal, neither happens. */
  lemma {:induction false} JobCallsBackOnlyOnChange(st: State, w: nat, fuel: nat)
    requires w < |st.watchers| && st.watchers[w].cb.Some?
    ensures var o := RunEffect(st, st.watchers[w].runner, fuel);
      var r := RunJob(st, w, fuel);
      o.res.Ok? && o.res.value == o.st.watchers[w].oldVal ==> r == Outcome(o.st, Ok(Undefined))
    ensures var o := RunEffect(st, st.watchers[w].runner, fuel);
      var r := RunJob(st, w, fuel);
      o.res.Ok? && o.res.value != o.st.watchers[w].oldVal && fuel > 0 ==>
        |r.st.log| > |o.st.log| &&
        r.st.log[..|o.st.log| + 1] == o.st.log + [Called(w, o.res.value, o.st.watchers[w].oldVal)] &&
        (r.res.Ok? ==> r.st.watchers[w].oldVal == o.res.value)
  {
    var watcher := st.watchers[w];
    var o := RunEffect(st, watcher.runner, fuel);
    if o.res.Ok? && o.res.value != o.st.watchers[w].oldVal && fuel > 0 {
      var ev := Called(w, o.res.value, o.st.watchers[w].oldVal);
      var called := o.st.(log := o.st.log + [ev]);
      var c := Exec(called, watcher.cb.value, 0, Undefined, fuel - 1);
      var fin := c.st.(watchers := c.st.watchers[w := c.st.watchers[w].(oldVal := o.res.value)]);
      assert RunJob(st, w, fuel) == if c.res.Ok? then Outcome(fin, Ok(Undefined)) else c;
      assert c.st.log[..|o.st.log| + 1] == called.log;
    }
  }

  /** Without a callback the job only calls the runner (effect.js:47-48). */
  lemma JobWithoutCallbackRunsRunner(st: State, w: nat, fuel: nat)
    requires w < |st.watchers| && st.watchers[w].cb.None?
    ensures var o := RunEffect(st, st.watchers[w].runner, fuel);
      RunJob(st, w, fuel) == Outcome(o.st, if o.res.Err? then o.res else Ok(Undefined))
  {
  }

  // ---------------------------------------------------------------------------
  // The reference accessors (ref.js:7-14)

  /** `p` has no step that writes reference `n`. */
  predicate NoWrite(p: Prog, n: nat)
  {
    forall i | 0 <= i < |p| :: !(p[i].Write? && p[i].r == n)
  }

  /** No code the state holds writes reference `n`: no effect body, no custom
      job and no watcher callback. Runs never add code, so this lasts. */
  predicate Untouched(st: State, n: nat)
  {
    (forall e | 0 <= e < |st.effects| :: NoWrite(st.effects[e].raw, n)) &&
    (forall e | 0 <= e < |st.effects| && st.effects[e].options.Some? &&
                st.effects[e].options.value.job.Some? && st.effects[e].options.value.job.value.CustomJob? ::
       NoWrite(st.effects[e].options.value.job.value.body, n)) &&
    (forall w | 0 <= w < |st.watchers| && st.watchers[w].cb.Some? :: NoWrite(st.watchers[w].cb.value, n))
  }

  /** The setter stores the value before it triggers, and when no code the
      state holds writes that reference, whatever the subscribers then do
      (even fail), a read afterwards returns the written value. */
  lemma {:induction false} ReadAfterWrite(st: State, n: nat, v: Value, fuel: nat)
    requires n < |st.refs| && Untouched(st, n)
    ensures var o := SetValue(st, n, v, fuel);
      o.st.refs[n] == v && GetValue(o.st, n).res == Ok(v)
  {
    TriggerKeepsRef(Assign(st, n, v), RefObject(n), ValueKey, fuel, n);
  }

  /** Tracking changes only `deps`, so it adds no code. */
  lemma TrackUntouched(st: State, s: ObjectId, k: Value, n: nat)
    requires Untouched(st, n)
    ensures Untouched(Track(st, s, k), n)
  {
    var r := Track(st, s, k);
    assert forall e | 0 <= e < |r.effects| :: r.effects[e].raw == st.effects[e].raw && r.effects[e].options == st.effects[e].options;
  }

  /** Running code that does not write reference `n`, in a state whose code
      does not either, leaves `n` as it was. */
  lemma {:induction false} ExecKeepsRef(st: State, p: Prog, i: nat, acc: Value, fuel: nat, n: nat)
    requires i <= |p| && n < |st.refs| && Untouched(st, n) && NoWrite(p, n)
    ensures var r := Exec(st, p, i, acc, fuel);
      r.st.refs[n] == st.refs[n] && Untouched(r.st, n)
    decreases fuel, 7, |p| - i
  {
    if i < |p| {
      var o := Step(st, p[i], fuel);
      StepKeepsRef(st, p[i], fuel, n);
      if o.res.Ok? {
        ExecKeepsRef(o.st, p, i + 1, o.res.value, fuel, n);
      }
    }
  }

  lemma {:induction false} StepKeepsRef(st: State, ins: Instr, fuel: nat, n: nat)
    requires n < |st.refs| && Untouched(st, n) && !(ins.Write? && ins.r == n)
    ensures var r := Step(st, ins, fuel);
      r.st.refs[n] == st.refs[n] && Untouched(r.st, n)
    decreases fuel, 6
  {
    match ins
    case Const(_) =>
    case Read(m) =>
      if m < |st.refs| {
        TrackUntouched(st, RefObject(m), ValueKey, n);
      }
    case Write(m, v) => SetValueKeepsRef(st, m, v, fuel, n);
    case Call(e) => RunEffectKeepsRef(st, e, fuel, n);
    case TrackKey(s, k) => TrackUntouched(st, s, k, n);
    case TriggerKey(s, k) => TriggerKeepsRef(st, s, k, fuel, n);
    case Throw =>
  }

  lemma {:induction false} SetValueKeepsRef(st: State, m: nat, v: Value, fuel: nat, n: nat)
    requires n < |st.refs| && Untouched(st, n) && m != n
    ensures var r := SetValue(st, m, v, fuel);
      r.st.refs[n] == st.refs[n] && Untouched(r.st, n)
    decreases fuel, 5
  {
    if m < |st.refs| {
      TriggerKeepsRef(Assign(st, m, v), RefObject(m), ValueKey, fuel, n);
    }
  }

  lemma {:induction false} TriggerKeepsRef(st: State, s: ObjectId, k: Value, fuel: nat, n: nat)
    requires n < |st.refs| && Untouched(st, n)
    ensures var r := Trigger(st, s, k, fuel);
      r.st.refs[n] == st.refs[n] && Untouched(r.st, n)
    decreases fuel, 4
  {
    match Lookup(st.targets, s, k)
    case Err(_) =>
    case Ok(subs) => TriggerEachKeepsRef(st, subs, 0, fuel, n);
  }

  lemma {:induction false} TriggerEachKeepsRef(st: State, subs: seq<EffectId>, i: nat, fuel: nat, n: nat)
    requires i <= |subs| && n < |st.refs| && Untouched(st, n)
    ensures var r := TriggerEach(st, subs, i, fuel);
      r.st.refs[n] == st.refs[n] && Untouched(r.st, n)
    decreases fuel, 3, |subs| - i
  {
    if i < |subs| {
      var o := Notify(st, subs[i], fuel);
      NotifyKeepsRef(st, subs[i], fuel, n);
      if o.res.Ok? {
        TriggerEachKeepsRef(o.st, subs, i + 1, fuel, n);
      }
    }
  }

  lemma {:induction false} NotifyKeepsRef(st: State, e: EffectId, fuel: nat, n: nat)
    requires n < |st.refs| && Untouched(st, n)
    ensures var r := Notify(st, e, fuel);
      r.st.refs[n] == st.refs[n] && Untouched(r.st, n)
    decreases fuel, 2
  {
    if e < |st.effects| && st.effects[e].options.Some? {
      var job := st.effects[e].options.value.job;
      if job.None? {
        RunEffectKeepsRef(st, e, fuel, n);
      } else if job.value.WatchJob? {
        RunJobKeepsRef(st, job.value.w, fuel, n);
      } else if fuel > 0 {
        ExecKeepsRef(st, job.value.body, 0, Undefined, fuel - 1, n);
      }
    }
  }

  lemma {:induction false} RunJobKeepsRef(st: State, w: nat, fuel: nat, n: nat)
    requires n < |st.refs| && Untouched(st, n)
    ensures var r := RunJob(st, w, fuel);
      r.st.refs[n] == st.refs[n] && Untouched(r.st, n)
    decreases fuel, 1
  {
    if w < |st.watchers| {
      var watcher := st.watchers[w];
      var o := RunEffect(st, watcher.runner, fuel);
      RunEffectKeepsRef(st, watcher.runner, fuel, n);
      if o.res.Ok? && watcher.cb.Some? && o.st.watchers[w].oldVal != o.res.value && fuel > 0 {
        var called := o.st.(log := o.st.log + [Called(w, o.res.value, o.st.watchers[w].oldVal)]);
        assert Untouched(called, n);
        var c := Exec(called, watcher.cb.value, 0, Undefined, fuel - 1);
        ExecKeepsRef(called, watcher.cb.value, 0, Undefined, fuel - 1, n);
        if c.res.Ok? {
          CallbackRecordUntouched(c.st, w, o.res.value, n);
        }
      }
    }
  }

  /** Setting a watcher's `oldVal` adds no code. */
  lemma CallbackRecordUntouched(st: State, w: nat, v: Value, n: nat)
    requires w < |st.watchers| && Untouched(st, n)
    ensures Untouched(st.(watchers := st.watchers[w := st.watchers[w].(oldVal := v)]), n)
  {
    var r := st.(watchers := st.watchers[w := st.watchers[w].(oldVal := v)]);
    assert forall x | 0 <= x < |r.watchers| :: r.watchers[x].cb == st.watchers[x].cb;
  }

  lemma {:induction false} RunEffectKeepsRef(st: State, e: EffectId, fuel: nat, n: nat)
    requires n < |st.refs| && Untouched(st, n)
    ensures var r := RunEffect(st, e, fuel);
      r.st.refs[n] == st.refs[n] && Untouched(r.st, n)
    decreases fuel, 0
  {
    if e < |st.effects| && fuel > 0 {
      var o := Exec(Enter(st, e), st.effects[e].raw, 0, Undefined, fuel - 1);
      ExecKeepsRef(Enter(st, e), st.effects[e].raw, 0, Undefined, fuel - 1, n);
      assert Leave(o.st).refs == o.st.refs && Leave(o.st).effects == o.st.effects && Leave(o.st).watchers == o.st.watchers;
    }
  }

  /** The setter has no equality check: writing the value a reference already
      holds still triggers its subscribers. */
  lemma WriteOfSameValueTriggers(st: State, n: nat, fuel: nat)
    requires n < |st.refs|
    ensures SetValue(st, n, st.refs[n], fuel) == Trigger(st, RefObject(n), ValueKey, fuel)
  {
    assert Assign(st, n, st.refs[n]) == st;
  }

  /** A write to a tracked reference runs exactly that reference's subscribers,
      in the order they subscribed, on the state holding the new value; no
      other reference's value changes before they run. */
  lemma WriteRunsOwnSubscribers(st: State, n: nat, v: Value, fuel: nat)
    requires n < |st.refs| && RefObject(n) in st.targets
    ensures SetValue(st, n, v, fuel) ==
      TriggerEach(Assign(st, n, v), Members(st.targets, RefObject(n), ValueKey), 0, fuel)
    ensures forall m | 0 <= m < |st.refs| && m != n :: Assign(st, n, v).refs[m] == st.refs[m]
  {
  }

  /** Writing a reference that no effect ever read: the value is stored, and
      then `trigger` dereferences the missing map of the reference and throws. */
  lemma WriteOfUntrackedRefFails(st: State, n: nat, v: Value, fuel: nat)
    requires n < |st.refs| && RefObject(n) !in st.targets
    ensures SetValue(st, n, v, fuel) == Outcome(Assign(st, n, v), Err(TypeError))
    ensures SetValue(st, n, v, fuel).st.refs[n] == v
  {
  }

  /** Reading outside any effect tracks nothing: the state is unchanged. */
  lemma ReadOutsideEffectTracksNothing(st: State, n: nat)
    requires st.active.None?
    ensures GetValue(st, n).st == st
  {
  }

  // ---------------------------------------------------------------------------
  // watch (effect.js:28-67)

  /** A getter that only reads: constants, reads of references, tracking and
      throwing, but no writes, triggers or calls. */
  predicate ReadsOnly(p: Prog)
  {
    forall i | 0 <= i < |p| :: p[i].Const? || p[i].Read? || p[i].TrackKey? || p[i].Throw?
  }

  /** The state right after `watch` allocated its effect and watcher, before
      the initial evaluation. */
  function Allocated(st: State, getter: Prog, cb: Option<Prog>, opts: WatchOptions): (r: State)
    ensures |r.effects| == |st.effects| + 1 && |r.watchers| == |st.watchers| + 1
  {
    var st1 := CreateEffect(st, getter, Some(Options(opts.lazy, Some(WatchJob(|st.watchers|)))));
    st1.(watchers := st1.watchers + [Watcher(cb, Undefined, |st.effects|)])
  }

  /** `watch` always installs its `job` as the effect's scheduling job, with or
      without a callback, keeps `lazy` inert in the options, and gives the
      effect the resolved getter as its body. */
  lemma {:induction false} WatchInstallsJob(st: State, src: Source, cb: Option<Prog>, opts: WatchOptions, fuel: nat)
    requires ResolveGetter(src).Ok?
    ensures var r := Watch(st, src, cb, opts, fuel);
      var e := |st.effects|;
      var w := |st.watchers|;
      |r.st.effects| == e + 1 && |r.st.watchers| == w + 1 &&
      r.st.effects[e].raw == ResolveGetter(src).value &&
      r.st.effects[e].options == Some(Options(opts.lazy, Some(WatchJob(w)))) &&
      r.st.watchers[w].cb == cb && r.st.watchers[w].runner == e
  {
    var getter := ResolveGetter(src).value;
    var a := Allocated(st, getter, cb, opts);
    var w := |st.watchers|;
    var e := |st.effects|;
    if cb.Some? && Truthy(opts.immediate) {
      RunJobEvolves(a, w, fuel);
    } else {
      RunEffectEvolves(a, e, fuel);
      assert SameEffect(a.effects[e], RunEffect(a, e, fuel).st.effects[e]);
    }
  }

  /** `watch` keeps the runtime's invariant, only grows the store, and every
      callback invocation it causes is for a real change. */
  lemma {:induction false} WatchEvolves(st: State, src: Source, cb: Option<Prog>, opts: WatchOptions, fuel: nat)
    requires Valid(st)
    ensures var r := Watch(st, src, cb, opts, fuel);
      Valid(r.st) && Grows(st.targets, r.st.targets) &&
      st.log <= r.st.log && ChangesOnly(r.st.log, |st.log|)
  {
    match ResolveGetter(src)
    case Err(_) =>
      GrowsReflexive(st.targets);
    case Ok(getter) =>
      var a := Allocated(st, getter, cb, opts);
      var w := |st.watchers|;
      var e := |st.effects|;
      assert Valid(a) by {
        CreateEffectMirrors(st, getter, Some(Options(opts.lazy, Some(WatchJob(w)))));
        forall s, k, x: EffectId | Subscribed(a.targets, s, k, x)
          ensures x < |a.effects|
        {
          assert Subscribed(st.targets, s, k, x);
        }
        forall i | 0 <= i < |a.effects| && HasWatchJob(a.effects[i])
          ensures a.effects[i].options.value.job.value.w < |a.watchers|
        {
          if i < e {
            assert a.effects[i] == st.effects[i];
          }
        }
      }
      if cb.Some? && Truthy(opts.immediate) {
        RunJobEvolves(a, w, fuel);
      } else {
        var o := RunEffect(a, e, fuel);
        RunEffectEvolves(a, e, fuel);
        if o.res.Ok? && cb.Some? {
          var cur := o.st.watchers[w];
          var fin := o.st.(watchers := o.st.watchers[w := cur.(oldVal := o.res.value)]);
          assert Valid(fin) by {
            assert forall x | 0 <= x < |fin.watchers| :: fin.watchers[x].runner == o.st.watchers[x].runner;
          }
        }
      }
  }

  /** With a callback and `immediate`, `watch` runs its job at once, against
      the freshly allocated watcher whose `oldVal` is still `undefined`. */
  lemma WatchImmediateRunsJob(st: State, src: Source, cb: Prog, opts: WatchOptions, fuel: nat)
    requires ResolveGetter(src).Ok? && Truthy(opts.immediate)
    ensures var a := Allocated(st, ResolveGetter(src).value, Some(cb), opts);
      var w := |st.watchers|;
      a.watchers[w] == Watcher(Some(cb), Undefined, |st.effects|) &&
      a.effects[|st.effects|].options == Some(Options(opts.lazy, Some(WatchJob(w)))) &&
      Watch(st, src, Some(cb), opts, fuel) == RunJob(a, w, fuel)
  {
  }

  /** With a callback and without `immediate`, `watch` runs the getter once in
      the new runner. A failure of that run is the failure of `watch`. On
      success `oldVal` becomes the getter's value and the run's calls are the
      only ones recorded; when the getter only reads, there are none. */
  lemma {:induction false} WatchSeedsOldValue(st: State, src: Source, cb: Prog, opts: WatchOptions, fuel: nat)
    requires ResolveGetter(src).Ok? && !Truthy(opts.immediate)
    ensures var a := Allocated(st, ResolveGetter(src).value, Some(cb), opts);
      var o := RunEffect(a, |st.effects|, fuel);
      var r := Watch(st, src, Some(cb), opts, fuel);
      (o.res.Err? ==> r == o) &&
      (o.res.Ok? ==>
         r.res == Ok(Undefined) && r.st.watchers[|st.watchers|].oldVal == o.res.value &&
         r.st.log == o.st.log && r.st.targets == o.st.targets) &&
      (ReadsOnly(ResolveGetter(src).value) ==> r.st.log == st.log)
  {
    var getter := ResolveGetter(src).value;
    var a := Allocated(st, getter, Some(cb), opts);
    var e := |st.effects|;
    var o := RunEffect(a, e, fuel);
    if ReadsOnly(getter) && fuel > 0 {
      ReadOnlyExec(Enter(a, e), getter, 0, Undefined, fuel - 1);
      assert o.st.log == st.log;
    }
  }

  /** Code that only reads leaves the references, the watchers and the record
      of calls as they were. */
  lemma {:induction false} ReadOnlyExec(st: State, p: Prog, i: nat, acc: Value, fuel: nat)
    requires i <= |p| && ReadsOnly(p)
    ensures var r := Exec(st, p, i, acc, fuel);
      r.st.refs == st.refs && r.st.watchers == st.watchers && r.st.log == st.log
    decreases |p| - i
  {
    if i < |p| {
      var o := Step(st, p[i], fuel);
      assert o.st.refs == st.refs && o.st.watchers == st.watchers && o.st.log == st.log;
      if o.res.Ok? {
        ReadOnlyExec(o.st, p, i + 1, o.res.value, fuel);
      }
    }
  }

  /** Watching a reference with a callback and without `immediate`: the
      initial run subscribes the runner to the reference and seeds `oldVal`
      with its current value, and the callback is not called. */
  lemma {:induction false} WatchRefSeedsOldValue(st: State, n: nat, cb: Prog, opts: WatchOptions, fuel: nat)
    requires ActiveIsTop(st) && n < |st.refs| && fuel > 0 && !Truthy(opts.immediate)
    ensures var r := Watch(st, Data(Object(RefObject(n))), Some(cb), opts, fuel);
      r.res == Ok(Undefined) && r.st.log == st.log &&
      r.st.watchers[|st.watchers|].oldVal == st.refs[n] &&
      Subscribed(r.st.targets, RefObject(n), ValueKey, |st.effects|) &&
      r.st.stack == st.stack && r.st.active == st.active
  {
    var a := Allocated(st, [Read(n)], Some(cb), opts);
    var e, w := |st.effects|, |st.watchers|;
    WatchRefRun(st, n, cb, opts, fuel);
    var t := Track(Enter(a, e), RefObject(n), ValueKey);
    assert Subscribed(t.targets, RefObject(n), ValueKey, e);
    var done := Leave(t);
    assert done.targets == t.targets && done.log == st.log;
    assert done.stack == st.stack && done.active == Top(st.stack);
  }

  /** The initial evaluation of `watch` on a reference without `immediate`:
      one tracked read inside the new runner, then `oldVal` is seeded. */
  lemma WatchRefRun(st: State, n: nat, cb: Prog, opts: WatchOptions, fuel: nat)
    requires n < |st.refs| && fuel > 0 && !Truthy(opts.immediate)
    ensures var a := Allocated(st, [Read(n)], Some(cb), opts);
      var done := Leave(Track(Enter(a, |st.effects|), RefObject(n), ValueKey));
      var w := |st.watchers|;
      Watch(st, Data(Object(RefObject(n))), Some(cb), opts, fuel) ==
        Outcome(done.(watchers := done.watchers[w := done.watchers[w].(oldVal := st.refs[n])]), Ok(Undefined))
  {
    var a := Allocated(st, [Read(n)], Some(cb), opts);
    assert ResolveGetter(Data(Object(RefObject(n)))) == Ok([Read(n)]);
    SingleReadRun(a, |st.effects|, n, fuel);
  }

  /** Watching a reference with `immediate`: the job runs at once against
      `oldVal = undefined`, so the callback is called with the current value
      and `undefined` unless the reference holds `undefined`. */
  lemma {:induction false} WatchRefImmediate(st: State, n: nat, cb: Prog, opts: WatchOptions, fuel: nat)
    requires n < |st.refs| && fuel > 0 && Truthy(opts.immediate)
    ensures var r := Watch(st, Data(Object(RefObject(n))), Some(cb), opts, fuel);
      var w := |st.watchers|;
      (st.refs[n] == Undefined ==> r.res == Ok(Undefined) && r.st.log == st.log) &&
      (st.refs[n] != Undefined ==>
         |r.st.log| > |st.log| && r.st.log[..|st.log| + 1] == st.log + [Called(w, st.refs[n], Undefined)] &&
         (r.res.Ok? ==> r.st.watchers[w].oldVal == st.refs[n]))
  {
    var a := Allocated(st, [Read(n)], Some(cb), opts);
    var e, w := |st.effects|, |st.watchers|;
    assert ResolveGetter(Data(Object(RefObject(n)))) == Ok([Read(n)]);
    assert Watch(st, Data(Object(RefObject(n))), Some(cb), opts, fuel) == RunJob(a, w, fuel);
    assert a.refs == st.refs && a.log == st.log;
    assert a.watchers[w] == Watcher(Some(cb), Undefined, e) && a.effects[e].raw == [Read(n)];
    ImmediateJobOnRead(a, w, e, n, cb, fuel);
  }

  /** A job whose runner reads one reference, run with `oldVal = undefined`. */
  lemma ImmediateJobOnRead(a: State, w: nat, e: EffectId, n: nat, cb: Prog, fuel: nat)
    requires w < |a.watchers| && a.watchers[w] == Watcher(Some(cb), Undefined, e)
    requires e < |a.effects| && a.effects[e].raw == [Read(n)] && n < |a.refs| && fuel > 0
    ensures var r := RunJob(a, w, fuel);
      (a.refs[n] == Undefined ==> r.res == Ok(Undefined) && r.st.log == a.log) &&
      (a.refs[n] != Undefined ==>
         |r.st.log| > |a.log| && r.st.log[..|a.log| + 1] == a.log + [Called(w, a.refs[n], Undefined)] &&
         (r.res.Ok? ==> r.st.watchers[w].oldVal == a.refs[n]))
  {
    ReadRunKeepsWatchers(a, e, n, fuel);
    JobCallsBackOnlyOnChange(a, w, fuel);
  }

  /** A runner whose body is one read returns the stored value and leaves the
      watchers and the record of calls as they were. */
  lemma ReadRunKeepsWatchers(a: State, e: EffectId, n: nat, fuel: nat)
    requires e < |a.effects| && a.effects[e].raw == [Read(n)] && n < |a.refs| && fuel > 0
    ensures RunEffect(a, e, fuel).res == Ok(a.refs[n])
    ensures RunEffect(a, e, fuel).st.watchers == a.watchers && RunEffect(a, e, fuel).st.log == a.log
  {
    SingleReadRun(a, e, n, fuel);
    var t := Track(Enter(a, e), RefObject(n), ValueKey);
    assert t.watchers == a.watchers && t.log == a.log;
  }

  /** Watching any other value: the getter returns the value itself and
      tracks nothing, so the store is unchanged and `oldVal` is the value. */
  lemma {:induction false} WatchConstantTracksNothing(st: State, v: Value, cb: Prog, opts: WatchOptions, fuel: nat)
    requires v != Undefined && v != Null && !(v.Object? && v.id.RefObject?)
    requires fuel > 0 && !Truthy(opts.immediate)
    ensures var r := Watch(st, Data(v), Some(cb), opts, fuel);
      r.res == Ok(Undefined) && r.st.targets == st.targets && r.st.log == st.log &&
      r.st.watchers[|st.watchers|].oldVal == v
  {
    var a := Allocated(st, [Const(v)], Some(cb), opts);
    var entered := Enter(a, |st.effects|);
    assert Exec(entered, [Const(v)], 0, Undefined, fuel - 1) == Outcome(entered, Ok(v));
  }

  // ---------------------------------------------------------------------------
  // Callers: any sequence of calls of the exported functions.

  /** One call of the exported surface of effect.js and ref.js. */
  datatype ApiCall =
    | MakeRef(v: Value)
    | MakeEffect(raw: Prog, options: Option<Options>)
    | CallRunner(e: EffectId)
    | GetRef(n: nat)
    | SetRef(n: nat, v: Value)
    | CallTrack(s: ObjectId, k: Value)
    | CallTrigger(s: ObjectId, k: Value)
    | CallWatch(src: Source, cb: Option<Prog>, opts: WatchOptions)

  function Apply(st: State, c: ApiCall, fuel: nat): Outcome
  {
    match c
    case MakeRef(v) => Outcome(NewRef(st, v), Ok(Object(RefObject(|st.refs|))))
    case MakeEffect(raw, options) => Outcome(CreateEffect(st, raw, options), Ok(Undefined))
    case CallRunner(e) => RunEffect(st, e, fuel)
    case GetRef(n) => GetValue(st, n)
    case SetRef(n, v) => SetValue(st, n, v, fuel)
    case CallTrack(s, k) => Outcome(Track(st, s, k), Ok(Undefined))
    case CallTrigger(s, k) => Trigger(st, s, k, fuel)
    case CallWatch(src, cb, opts) => Watch(st, src, cb, opts, fuel)
  }

  /** The calls one after another; a caller that catches each failure goes
      on with the state the failed call left. */
  function ApplyAll(st: State, calls: seq<ApiCall>, fuel: nat): State
    decreases |calls|
  {
    if calls == [] then st else ApplyAll(Apply(st, calls[0], fuel).st, calls[1..], fuel)
  }

  /** A job closure cannot be written by a direct caller of `effect`: only
      `watch` makes one. */
  predicate CallerMade(c: ApiCall)
  {
    c.MakeEffect? ==> !HasWatchJob(NewEffect(c.raw, c.options))
  }

  lemma InitValid()
    ensures Valid(Init)
  {
  }

  lemma {:induction false} ApplyPreserves(st: State, c: ApiCall, fuel: nat)
    requires Valid(st) && CallerMade(c)
    ensures var r := Apply(st, c, fuel).st;
      Valid(r) && Grows(st.targets, r.targets) && st.log <= r.log && ChangesOnly(r.log, |st.log|)
  {
    var r := Apply(st, c, fuel).st;
    match c
    case MakeRef(v) => NewRefPreserves(st, v);
    case MakeEffect(raw, options) => CreateEffectPreserves(st, raw, options);
    case CallRunner(e) =>
      assert r == RunEffect(st, e, fuel).st;
      RunEffectEvolves(st, e, fuel);
      EvolvesFromValid(st, r);
    case GetRef(n) =>
      if n < |st.refs| {
        assert r == Track(st, RefObject(n), ValueKey);
        TrackEvolves(st, RefObject(n), ValueKey);
        EvolvesFromValid(st, r);
      } else {
        assert r == st;
        GrowsReflexive(st.targets);
      }
    case SetRef(n, v) =>
      assert r == SetValue(st, n, v, fuel).st;
      SetValueEvolves(st, n, v, fuel);
      EvolvesFromValid(st, r);
    case CallTrack(s, k) =>
      assert r == Track(st, s, k);
      TrackEvolves(st, s, k);
      EvolvesFromValid(st, r);
    case CallTrigger(s, k) =>
      assert r == Trigger(st, s, k, fuel).st;
      TriggerEvolves(st, s, k, fuel);
      EvolvesFromValid(st, r);
    case CallWatch(src, cb, opts) => WatchEvolves(st, src, cb, opts, fuel);
  }

  /** Creating a reference keeps the state valid and the store unchanged. */
  lemma NewRefPreserves(st: State, v: Value)
    requires Valid(st)
    ensures Valid(NewRef(st, v)) && Grows(st.targets, NewRef(st, v).targets)
  {
    EvolvesReflexive(st);
  }

  /** From a valid state, a change that `Evolves` and keeps the stack ends in
      a valid state that only grew the store and the record of calls. */
  lemma EvolvesFromValid(a: State, b: State)
    requires Valid(a) && Evolves(a, b) && b.stack == a.stack
    ensures Valid(b) && Grows(a.targets, b.targets) && a.log <= b.log && ChangesOnly(b.log, |a.log|)
  {
  }

  /** Creating an effect without a watch job keeps the state valid. */
  lemma CreateEffectPreserves(st: State, raw: Prog, options: Option<Options>)
    requires Valid(st) && !HasWatchJob(NewEffect(raw, options))
    ensures Valid(CreateEffect(st, raw, options))
    ensures Grows(st.targets, CreateEffect(st, raw, options).targets)
  {
    GrowsReflexive(st.targets);
    CreateEffectMirrors(st, raw, options);
    var r := CreateEffect(st, raw, options);
    forall s, k, x: EffectId | Subscribed(r.targets, s, k, x)
      ensures x < |r.effects|
    {
      assert Subscribed(st.targets, s, k, x);
    }
    forall i | 0 <= i < |r.effects| && HasWatchJob(r.effects[i])
      ensures r.effects[i].options.value.job.value.w < |r.watchers|
    {
      if i < |st.effects| {
        assert r.effects[i] == st.effects[i];
      }
    }
  }

  /** Whatever callers do, the runtime stays valid, the store never loses an
      entry, and a watch callback is only ever called for a value strictly
      different from the recorded old one. */
  lemma {:induction false} ApplyAllPreserves(st: State, calls: seq<ApiCall>, fuel: nat)
    requires Valid(st) && forall i | 0 <= i < |calls| :: CallerMade(calls[i])
    ensures var r := ApplyAll(st, calls, fuel);
      Valid(r) && Grows(st.targets, r.targets) && st.log <= r.log && ChangesOnly(r.log, |st.log|)
    decreases |calls|
  {
    if calls == [] {
      GrowsReflexive(st.targets);
    } else {
      var mid := Apply(st, calls[0], fuel).st;
      ApplyPreserves(st, calls[0], fuel);
      ApplyAllPreserves(mid, calls[1..], fuel);
      GrowsTransitive(st.targets, mid.targets, ApplyAll(mid, calls[1..], fuel).targets);
    }
  }

  // ---------------------------------------------------------------------------
  // The end-to-end example: `a = ref(0); watch(a, cb); a.value = 1;
  // a.value = 1; a.value = 2` records the callback calls (0, 1) and (1, 2).

  const NoOptions: WatchOptions := WatchOptions(Undefined, Undefined, Undefined)

  /** After `a = ref(0); watch(a, cb)`: `a` holds `x`, the watcher recorded
      `prev`, and the watch's runner (effect 0) is `a`'s only subscriber. */
  function DemoState(x: Value, prev: Value, log: seq<Event>): State
  {
    State(
      map[RefObject(0) := map[ValueKey := [0]]], [], None,
      [EffectRec(true, true, [DepLoc(RefObject(0), ValueKey)], [Read(0)],
                 Some(Options(Undefined, Some(WatchJob(0)))))],
      [x], [Watcher(Some([]), prev, 0)], log)
  }

  /** `watch(a, cb)` right after `a = ref(0)`. */
  lemma DemoWatch(s1: State, fuel: nat)
    requires s1 == NewRef(Init, Num(0)) && fuel > 0
    ensures Watch(s1, Data(Object(RefObject(0))), Some([]), NoOptions, fuel).st
            == DemoState(Num(0), Num(0), [])
  {
    WatchRefRun(s1, 0, [], NoOptions, fuel);
    assert |s1.effects| == 0 && |s1.watchers| == 0;
    DemoAfterRun(s1, Allocated(s1, [Read(0)], Some([]), NoOptions));
  }

  /** The state the example's first run of the watch's runner leaves. */
  lemma DemoAfterRun(s1: State, a: State)
    requires s1 == NewRef(Init, Num(0)) && a == Allocated(s1, [Read(0)], Some([]), NoOptions)
    ensures var done := Leave(Track(Enter(a, 0), RefObject(0), ValueKey));
      done.(watchers := done.watchers[0 := done.watchers[0].(oldVal := s1.refs[0])])
      == DemoState(Num(0), Num(0), [])
  {
    assert a.refs == [Num(0)] && a.log == [] && a.watchers == [Watcher(Some([]), Undefined, 0)];
    var t := Track(Enter(a, 0), RefObject(0), ValueKey);
    DemoFirstTrack(Enter(a, 0), t);
    assert t.refs == [Num(0)] && t.log == [] && t.watchers == [Watcher(Some([]), Undefined, 0)];
    var done := Leave(t);
    assert done == t.(stack := [], active := None);
    var fin := done.(watchers := [Watcher(Some([]), Num(0), 0)]);
    assert done.watchers[0 := done.watchers[0].(oldVal := s1.refs[0])] == fin.watchers;
    assert fin == DemoState(Num(0), Num(0), []);
  }

  /** The first read of `a`, inside the watch's runner, creates the store's
      only entry and records it in the runner's `deps`. */
  lemma DemoFirstTrack(entered: State, t: State)
    requires entered.targets == map[] && entered.active == Some(0)
    requires entered.effects == [NewEffect([Read(0)], Some(Options(Undefined, Some(WatchJob(0)))))]
    requires t == Track(entered, RefObject(0), ValueKey)
    ensures t.targets == map[RefObject(0) := map[ValueKey := [0]]]
    ensures t.effects == DemoState(Num(0), Num(0), []).effects
  {
    var none: Targets := map[];
    var empty: seq<EffectId> := [];
    assert empty + [0] == [0];
    var inner: map<Value, seq<EffectId>> := map[];
    assert inner[ValueKey := empty + [0]] == map[ValueKey := [0]];
    assert RefObject(0) !in none && !Subscribed(none, RefObject(0), ValueKey, 0);
    assert Subscribe(none, RefObject(0), ValueKey, 0) == none[RefObject(0) := inner[ValueKey := empty + [0]]];
    assert none[RefObject(0) := map[ValueKey := [0]]] == map[RefObject(0) := map[ValueKey := [0]]];
    assert !Subscribed(map[], RefObject(0), ValueKey, 0);
    assert t.effects[0] == DemoState(Num(0), Num(0), []).effects[0];
  }

  lemma DemoSetup(calls: seq<ApiCall>, fuel: nat)
    requires calls == [MakeRef(Num(0)), CallWatch(Data(Object(RefObject(0))), Some([]), NoOptions)]
    requires fuel > 0
    ensures ApplyAll(Init, calls, fuel) == DemoState(Num(0), Num(0), [])
  {
    var s1 := NewRef(Init, Num(0));
    DemoWatch(s1, fuel);
    var s2 := DemoState(Num(0), Num(0), []);
    ApplyAllStep(Init, calls, fuel);
    ApplyAllStep(s1, calls[1..], fuel);
    assert calls[1..][1..] == [];
    ApplyAllStep(s2, [], fuel);
  }

  /** One write `a.value = v` in the example: the job re-reads `a` and calls
      back exactly when `v` differs from the recorded prev value. */
  lemma DemoWrite(x: Value, prev: Value, log: seq<Event>, v: Value, fuel: nat)
    requires fuel > 0
    ensures SetValue(DemoState(x, prev, log), 0, v, fuel) ==
      Outcome(if v == prev then DemoState(v, prev, log) else DemoState(v, v, log + [Called(0, v, prev)]),
              Ok(Undefined))
  {
    var a := Assign(DemoState(x, prev, log), 0, v);
    assert a == DemoState(v, prev, log);
    assert Lookup(a.targets, RefObject(0), ValueKey) == Ok([0]);
    var after := if v == prev then a else DemoState(v, v, log + [Called(0, v, prev)]);
    DemoJob(a, v, prev, log, fuel);
    assert Notify(a, 0, fuel) == Outcome(after, Ok(Undefined));
    assert TriggerEach(after, [0], 1, fuel) == Outcome(after, Ok(Undefined));
    assert TriggerEach(a, [0], 0, fuel) == Outcome(after, Ok(Undefined));
  }

  /** The job of the example's watcher once `a` holds `v`. */
  lemma DemoJob(a: State, v: Value, prev: Value, log: seq<Event>, fuel: nat)
    requires a == DemoState(v, prev, log) && fuel > 0
    ensures RunJob(a, 0, fuel) ==
      Outcome(if v == prev then a else DemoState(v, v, log + [Called(0, v, prev)]), Ok(Undefined))
  {
    DemoRunner(a, v, prev, log, fuel);
    if v != prev {
      var called := a.(log := log + [Called(0, v, prev)]);
      assert Exec(called, [], 0, Undefined, fuel - 1) == Outcome(called, Ok(Undefined));
    }
  }

  /** The example's runner re-reads `a`; the subscription already exists, so
      nothing changes. */
  lemma DemoRunner(a: State, v: Value, prev: Value, log: seq<Event>, fuel: nat)
    requires a == DemoState(v, prev, log) && fuel > 0
    ensures RunEffect(a, 0, fuel) == Outcome(a, Ok(v))
  {
    SingleReadRun(a, 0, 0, fuel);
    assert Track(Enter(a, 0), RefObject(0), ValueKey) == Enter(a, 0);
  }

  /** The redundant second write records nothing. */
  lemma {:induction false} DemoRecord()
    ensures ApplyAll(Init, [MakeRef(Num(0)), CallWatch(Data(Object(RefObject(0))), Some([]), NoOptions),
                            SetRef(0, Num(1)), SetRef(0, Num(1)), SetRef(0, Num(2))], 1).log
            == [Called(0, Num(1), Num(0)), Called(0, Num(2), Num(1))]
  {
    var setup := [MakeRef(Num(0)), CallWatch(Data(Object(RefObject(0))), Some([]), NoOptions)];
    var writes := [SetRef(0, Num(1)), SetRef(0, Num(1)), SetRef(0, Num(2))];
    assert setup + writes == [MakeRef(Num(0)), CallWatch(Data(Object(RefObject(0))), Some([]), NoOptions),
                              SetRef(0, Num(1)), SetRef(0, Num(1)), SetRef(0, Num(2))];
    ApplyAllAppend(Init, setup, writes, 1);
    DemoSetup(setup, 1);
    DemoWrites(writes, 1);
  }

  /** The three writes of the example. */
  lemma DemoWrites(writes: seq<ApiCall>, fuel: nat)
    requires writes == [SetRef(0, Num(1)), SetRef(0, Num(1)), SetRef(0, Num(2))] && fuel > 0
    ensures ApplyAll(DemoState(Num(0), Num(0), []), writes, fuel)
            == DemoState(Num(2), Num(2), [Called(0, Num(1), Num(0)), Called(0, Num(2), Num(1))])
  {
    var log1 := [Called(0, Num(1), Num(0))];
    var log2 := log1 + [Called(0, Num(2), Num(1))];
    var s2 := DemoState(Num(0), Num(0), []);
    var s3 := DemoState(Num(1), Num(1), log1);
    var s5 := DemoState(Num(2), Num(2), log2);
    DemoWrite(Num(0), Num(0), [], Num(1), fuel);
    DemoWrite(Num(1), Num(1), log1, Num(1), fuel);
    DemoWrite(Num(1), Num(1), log1, Num(2), fuel);
    DemoLastWrites(s3, s5, writes[1..], fuel);
    ApplyAllStep(s2, writes, fuel);
    assert writes[0] == SetRef(0, Num(1));
    assert Apply(s2, writes[0], fuel).st == s3;
  }

  lemma DemoLastWrites(s3: State, s5: State, calls: seq<ApiCall>, fuel: nat)
    requires calls == [SetRef(0, Num(1)), SetRef(0, Num(2))]
    requires SetValue(s3, 0, Num(1), fuel).st == s3 && SetValue(s3, 0, Num(2), fuel).st == s5
    ensures ApplyAll(s3, calls, fuel) == s5
  {
    ApplyAllStep(s5, [], fuel);
    ApplyAllStep(s3, calls[1..], fuel);
    ApplyAllStep(s3, calls, fuel);
  }

  lemma ApplyAllStep(st: State, calls: seq<ApiCall>, fuel: nat)
    ensures calls == [] ==> ApplyAll(st, calls, fuel) == st
    ensures calls != [] ==> ApplyAll(st, calls, fuel) == ApplyAll(Apply(st, calls[0], fuel).st, calls[1..], fuel)
  {
  }

  /** Running two call sequences one after the other. */
  lemma {:induction false} ApplyAllAppend(st: State, first: seq<ApiCall>, second: seq<ApiCall>, fuel: nat)
    ensures ApplyAll(st, first + second, fuel) == ApplyAll(ApplyAll(st, first, fuel), second, fuel)
    decreases |first|
  {
    if first != [] {
      assert (first + second)[0] == first[0];
      assert (first + second)[1..] == first[1..] + second;
      ApplyAllAppend(Apply(st, first[0], fuel).st, first[1..], second, fuel);
    } else {
      assert first + second == second;
    }
  }
}

/**
  The meaning of reactivity/effect.js and reactivity/ref.js, written as
  functions over an explicit state. The globals of effect.js (`targetsMap`,
  `effectStack`, `activeEffect`), the effects `effect` creates, the references
  `ref` creates and the `oldVal` each `watch` keeps are fields of `State`.

  JavaScript closures are programs of a small instruction language (`Prog`):
  effect bodies, watch getters, callbacks and custom jobs. A callback's
  arguments are recorded in `State.log` when it is called.

  The ref setter calls `trigger`, `trigger` runs effects and jobs, and effects
  run programs that use the ref accessors, so these functions are one mutually
  recursive family. `fuel` bounds the nesting of effect, job and callback
  bodies: a self-triggering effect recurses in the source until the host
  stack overflows, which here is `Err(OutOfFuel)`.
 */
module Semantics {
  import opened Values
  import opened Store

  /** One step of a closure. Each step leaves a value, and a program's result
      is the value of its last step (undefined for an empty program). */
  datatype Instr =
    | Const(v: Value)                 // evaluate a constant
    | Read(r: nat)                    // `ref.value` (getter)
    | Write(r: nat, v: Value)         // `ref.value = v` (setter)
    | Call(e: EffectId)               // call the runner of effect `e`
    | TrackKey(s: ObjectId, k: Value) // `track(s, k)`
    | TriggerKey(s: ObjectId, k: Value) // `trigger(s, k)`
    | Throw                           // raise an exception

  type Prog = seq<Instr>

  /** A scheduling job: the `job` closure of watcher `w`, or one supplied by a
      direct caller of `effect`. */
  datatype Job = WatchJob(w: nat) | CustomJob(body: Prog)

  /** The options record given to `effect`; `watch` passes `{ lazy, job }`. */
  datatype Options = Options(lazy: Value, job: Option<Job>)

  /** A subscriber set the effect joined, named by its place in the store
      (sets are never replaced or removed, so the place identifies the set). */
  datatype DepLoc = DepLoc(s: ObjectId, k: Value)

  /** The properties `effect` attaches to its runner (effect.js:19-23);
      `options` is `None` when the caller passed none. */
  datatype EffectRec = EffectRec(
    active: bool, isEffect: bool, deps: seq<DepLoc>, raw: Prog, options: Option<Options>)

  /** What the closures of one `watch` call share: the callback, the captured
      `oldVal` and the runner. */
  datatype Watcher = Watcher(cb: Option<Prog>, oldVal: Value, runner: EffectId)

  /** `cb(newVal, oldVal)` was called for watcher `w`. */
  datatype Event = Called(w: nat, newVal: Value, oldVal: Value)

  datatype State = State(
    targets: Targets,
    stack: seq<EffectId>,
    active: Option<EffectId>,
    effects: seq<EffectRec>,
    refs: seq<Value>,
    watchers: seq<Watcher>,
    log: seq<Event>)

  datatype Outcome = Outcome(st: State, res: Result<Value>)

  /** What `watch` is given to observe: a function, or any other value. */
  datatype Source = Function(body: Prog) | Data(v: Value)

  /** The destructured `{ lazy, deep, immediate }`; absent ones are undefined. */
  datatype WatchOptions = WatchOptions(lazy: Value, deep: Value, immediate: Value)

  /** Process start: empty store, empty stack, no active effect. */
  const Init: State := State(map[], [], None, [], [], [], [])

  /** `effectStack[effectStack.length - 1]`, undefined for an empty stack. */
  function Top(stack: seq<EffectId>): (r: Option<EffectId>)
    ensures r.Some? <==> |stack| > 0
    ensures r.Some? ==> r.value == stack[|stack| - 1]
  {
    if |stack| == 0 then None else Some(stack[|stack| - 1])
  }

  predicate ActiveIsTop(st: State)
  {
    st.active == Top(st.stack)
  }

  /** What every run of user code leaves as it was: the stack (and so the
      active effect, when it was the top of the stack), the number of
      effects, references and watchers, and the callback calls already
      recorded. */
  predicate Restores(a: State, b: State)
  {
    b.stack == a.stack &&
    (ActiveIsTop(a) ==> b.active == a.active) &&
    |b.effects| == |a.effects| && |b.refs| == |a.refs| && |b.watchers| == |a.watchers| &&
    a.log <= b.log
  }

  // ---------------------------------------------------------------------------
  // effect (effect.js:7-26)

  /** The runner's properties at creation (effect.js:19-23). */
  function NewEffect(raw: Prog, options: Option<Options>): (r: EffectRec)
    ensures r.active && r.isEffect && r.deps == []
    ensures r.raw == raw && r.options == options
  {
    EffectRec(true, true, [], raw, options)
  }

  /** `effect(fn, options)`: the new effect is number `|st.effects|`. */
  function CreateEffect(st: State, raw: Prog, options: Option<Options>): (r: State)
    ensures r.effects == st.effects + [NewEffect(raw, options)]
    ensures r == st.(effects := r.effects)
  {
    st.(effects := st.effects + [NewEffect(raw, options)])
  }

  /** Entering the runner: `effectStack.push(e); activeEffect = e`. */
  function Enter(st: State, e: EffectId): (r: State)
    ensures r.stack == st.stack + [e] && r.active == Some(e) && ActiveIsTop(r)
    ensures r == st.(stack := r.stack, active := r.active)
  {
    st.(stack := st.stack + [e], active := Some(e))
  }

  /** The `finally` of the runner: pop the stack (a no-op on an empty stack)
      and make the new top the active effect. */
  function Leave(st: State): (r: State)
    ensures ActiveIsTop(r)
    ensures |st.stack| > 0 ==> r.stack == st.stack[..|st.stack| - 1]
    ensures r == st.(stack := r.stack, active := r.active)
  {
    var s := if |st.stack| == 0 then [] else st.stack[..|st.stack| - 1];
    st.(stack := s, active := Top(s))
  }

  // ---------------------------------------------------------------------------
  // track (effect.js:70-89)

  /** `track(s, k)`: nothing without an active effect; otherwise subscribe the
      active effect and, when it was not yet a member, record the set in its
      `deps`. */
  function Track(st: State, s: ObjectId, k: Value): (r: State)
    ensures st.active.None? ==> r == st
    ensures st.active.Some? ==> Subscribed(r.targets, s, k, st.active.value)
    ensures Grows(st.targets, r.targets)
    ensures NoDuplicates(st.targets) ==> NoDuplicates(r.targets)
    ensures r == st.(targets := r.targets, effects := r.effects)
    ensures |r.effects| == |st.effects|
    ensures forall i | 0 <= i < |st.effects| ::
      r.effects[i] == st.effects[i].(deps := r.effects[i].deps)
    ensures forall i | 0 <= i < |st.effects| && Some(i) != st.active ::
      r.effects[i] == st.effects[i]
    ensures st.active.Some? && st.active.value < |st.effects| ==>
      var e := st.active.value;
      r.effects[e].deps ==
        st.effects[e].deps + (if Subscribed(st.targets, s, k, e) then [] else [DepLoc(s, k)])
  {
    match st.active
    case None => st
    case Some(e) =>
      var joins := !Subscribed(st.targets, s, k, e);
      st.(targets := Subscribe(st.targets, s, k, e),
          effects :=
            if joins && e < |st.effects|
            then st.effects[e := st.effects[e].(deps := st.effects[e].deps + [DepLoc(s, k)])]
            else st.effects)
  }

  // ---------------------------------------------------------------------------
  // ref (ref.js:3-17)

  /** `ref(v)`: the new reference is number `|st.refs|` and holds `v`. */
  function NewRef(st: State, v: Value): (r: State)
    ensures |r.refs| == |st.refs| + 1 && r.refs[|st.refs|] == v
    ensures r.refs[..|st.refs|] == st.refs
    ensures r == st.(refs := r.refs)
  {
    st.(refs := st.refs + [v])
  }

  /** The getter: `track(r, "value")`, then the stored value. A number that
      names no reference stands for a variable holding `undefined`. */
  function GetValue(st: State, n: nat): (r: Outcome)
    ensures n < |st.refs| ==> r == Outcome(Track(st, RefObject(n), ValueKey), Ok(st.refs[n]))
    ensures n >= |st.refs| ==> r == Outcome(st, Err(TypeError))
  {
    if n >= |st.refs| then Outcome(st, Err(TypeError))
    else Outcome(Track(st, RefObject(n), ValueKey), Ok(st.refs[n]))
  }

  /** The store half of the setter: `this._value = v`. */
  function Assign(st: State, n: nat, v: Value): (r: State)
    requires n < |st.refs|
    ensures |r.refs| == |st.refs| && r.refs[n] == v
    ensures forall m | 0 <= m < |st.refs| && m != n :: r.refs[m] == st.refs[m]
    ensures r == st.(refs := r.refs)
  {
    st.(refs := st.refs[n := v])
  }

  // ---------------------------------------------------------------------------
  // watch's getter (effect.js:29-37)

  /** Resolve a source into the getter the runner will run. */
  function ResolveGetter(src: Source): (r: Result<Prog>)
    ensures src.Function? ==> r == Ok(src.body)
    ensures src.Data? && src.v.Object? && src.v.id.RefObject? ==> r == Ok([Read(src.v.id.n)])
    ensures src.Data? && (src.v == Undefined || src.v == Null) ==> r == Err(TypeError)
    ensures src.Data? && src.v != Undefined && src.v != Null && !(src.v.Object? && src.v.id.RefObject?)
            ==> r == Ok([Const(src.v)])
  {
    match src
    case Function(body) => Ok(body)
    case Data(v) =>
      match v
      case Undefined => Err(TypeError)     // `undefined._isRef` throws
      case Null => Err(TypeError)          // `null._isRef` throws
      case Object(RefObject(n)) => Ok([Read(n)])
      case _ => Ok([Const(v)])
  }

  // ---------------------------------------------------------------------------
  // The mutually recursive family: running code.

  /** Run `p` from step `i` with `acc` the value of the previous step. */
  function Exec(st: State, p: Prog, i: nat, acc: Value, fuel: nat): (r: Outcome)
    requires i <= |p|
    ensures Restores(st, r.st)
    decreases fuel, 7, |p| - i
  {
    if i == |p| then Outcome(st, Ok(acc))
    else
      var o := Step(st, p[i], fuel);
      if o.res.Err? then o else Exec(o.st, p, i + 1, o.res.value, fuel)
  }

  function Step(st: State, ins: Instr, fuel: nat): (r: Outcome)
    ensures Restores(st, r.st)
    decreases fuel, 6
  {
    match ins
    case Const(v) => Outcome(st, Ok(v))
    case Read(n) => GetValue(st, n)
    case Write(n, v) =>
      var o := SetValue(st, n, v, fuel);
      if o.res.Err? then o else Outcome(o.st, Ok(v))
    case Call(e) => RunEffect(st, e, fuel)
    case TrackKey(s, k) => Outcome(Track(st, s, k), Ok(Undefined))
    case TriggerKey(s, k) => Trigger(st, s, k, fuel)
    case Throw => Outcome(st, Err(Thrown))
  }

  /** The setter (ref.js:11-14): store `v` unconditionally, then
      `trigger(r, "value")`. */
  function SetValue(st: State, n: nat, v: Value, fuel: nat): (r: Outcome)
    ensures Restores(st, r.st)
    decreases fuel, 5
  {
    if n >= |st.refs| then Outcome(st, Err(TypeError))
    else Trigger(Assign(st, n, v), RefObject(n), ValueKey, fuel)
  }

  /** `trigger(s, k)` (effect.js:92-109). */
  function Trigger(st: State, s: ObjectId, k: Value, fuel: nat): (r: Outcome)
    ensures Restores(st, r.st)
    decreases fuel, 4
  {
    match Lookup(st.targets, s, k)
    case Err(err) => Outcome(st, Err(err))
    case Ok(subs) => TriggerEach(st, subs, 0, fuel)
  }

  /** The `forEach` over the subscribers, from the `i`-th on; the first
      failure ends it. */
  function TriggerEach(st: State, subs: seq<EffectId>, i: nat, fuel: nat): (r: Outcome)
    requires i <= |subs|
    ensures Restores(st, r.st)
    decreases fuel, 3, |subs| - i
  {
    if i == |subs| then Outcome(st, Ok(Undefined))
    else
      var o := Notify(st, subs[i], fuel);
      if o.res.Err? then o else TriggerEach(o.st, subs, i + 1, fuel)
  }

  /** One subscriber: its `options.job` if it has one, else the effect itself.
      Reading `job` from undefined options throws. */
  function Notify(st: State, e: EffectId, fuel: nat): (r: Outcome)
    ensures Restores(st, r.st)
    ensures r.res.Ok? ==> r.res.value == Undefined
    decreases fuel, 2
  {
    if e >= |st.effects| then Outcome(st, Err(TypeError))
    else
      match st.effects[e].options
      case None => Outcome(st, Err(TypeError))
      case Some(opts) =>
        match opts.job
        case None =>
          var o := RunEffect(st, e, fuel);
          if o.res.Err? then o else Outcome(o.st, Ok(Undefined))
        case Some(WatchJob(w)) => RunJob(st, w, fuel)
        case Some(CustomJob(body)) =>
          if fuel == 0 then Outcome(st, Err(OutOfFuel))
          else
            var o := Exec(st, body, 0, Undefined, fuel - 1);
            if o.res.Err? then o else Outcome(o.st, Ok(Undefined))
  }

  /** The `job` closure of watcher `w` (effect.js:40-50). With a callback: run
      the runner and, only when the new value is strictly different from
      `oldVal`, call `cb(newVal, oldVal)` and then set `oldVal := newVal`.
      Without one: just run the runner. */
  function RunJob(st: State, w: nat, fuel: nat): (r: Outcome)
    ensures Restores(st, r.st)
    ensures r.res.Ok? ==> r.res.value == Undefined
    decreases fuel, 1
  {
    if w >= |st.watchers| then Outcome(st, Err(TypeError))
    else
      var watcher := st.watchers[w];
      var o := RunEffect(st, watcher.runner, fuel);
      if o.res.Err? then o
      else if watcher.cb.None? then Outcome(o.st, Ok(Undefined))
      else
        var newVal := o.res.value;
        var oldVal := o.st.watchers[w].oldVal;
        if oldVal == newVal then Outcome(o.st, Ok(Undefined))
        else if fuel == 0 then Outcome(o.st, Err(OutOfFuel))
        else
          var called := o.st.(log := o.st.log + [Called(w, newVal, oldVal)]);
          var c := Exec(called, watcher.cb.value, 0, Undefined, fuel - 1);
          if c.res.Err? then c
          else
            var cur := c.st.watchers[w];
            Outcome(c.st.(watchers := c.st.watchers[w := cur.(oldVal := newVal)]), Ok(Undefined))
  }

  /** Calling the runner of effect `e` (effect.js:8-17): push, run the body,
      and pop on every exit path, returning the body's result or failure. */
  function RunEffect(st: State, e: EffectId, fuel: nat): (r: Outcome)
    ensures Restores(st, r.st)
    decreases fuel, 0
  {
    if e >= |st.effects| then Outcome(st, Err(TypeError))
    else if fuel == 0 then Outcome(st, Err(OutOfFuel))
    else
      var o := Exec(Enter(st, e), st.effects[e].raw, 0, Undefined, fuel - 1);
      Outcome(Leave(o.st), o.res)
  }

  // ---------------------------------------------------------------------------
  // watch (effect.js:28-67)

  /** `watch(source, cb, options)`: watcher number `|st.watchers|` and effect
      number `|st.effects|` are created, the effect with options
      `{ lazy, job }`, then the initial evaluation runs. */
  function Watch(st: State, src: Source, cb: Option<Prog>, opts: WatchOptions, fuel: nat): (r: Outcome)
    ensures r.res.Ok? ==> r.res.value == Undefined
  {
    match ResolveGetter(src)
    case Err(err) => Outcome(st, Err(err))
    case Ok(getter) =>
      var w := |st.watchers|;
      var e := |st.effects|;
      var st1 := CreateEffect(st, getter, Some(Options(opts.lazy, Some(WatchJob(w)))));
      var st2 := st1.(watchers := st1.watchers + [Watcher(cb, Undefined, e)]);
      if cb.Some? && Truthy(opts.immediate) then RunJob(st2, w, fuel)
      else
        var o := RunEffect(st2, e, fuel);
        if o.res.Err? then o
        else if cb.Some? then
          var cur := o.st.watchers[w];
          Outcome(o.st.(watchers := o.st.watchers[w := cur.(oldVal := o.res.value)]), Ok(Undefined))
        else Outcome(o.st, Ok(Undefined))
  }
}

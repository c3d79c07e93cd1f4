/**
  The runtime as the source has it: process-wide state updated in place.
  The fields of `Runtime` are the globals of reactivity/effect.js
  (`targetsMap`, `effectStack`, `activeEffect`), the effects, references and
  watchers it creates, and the record of callback calls. Each method does in
  steps what its source function does and is proved to end in the state and
  result the corresponding function in Semantics gives.
 */
module Runtime {
  import opened Values
  import opened Store
  import S = Semantics

  class Runtime {
    var targets: Targets
    var stack: seq<EffectId>
    var active: Option<EffectId>
    var effects: seq<S.EffectRec>
    var refs: seq<Value>
    var watchers: seq<S.Watcher>
    var log: seq<S.Event>

    /** The fields as one value of the specification's state. */
    function Model(): S.State
      reads this
    {
      S.State(targets, stack, active, effects, refs, watchers, log)
    }

    /** Process start (effect.js:2-4). */
    constructor ()
      ensures Model() == S.Init
    {
      targets := map[];
      stack := [];
      active := None;
      effects := [];
      refs := [];
      watchers := [];
      log := [];
    }

    /** `effect(fn, options)` (effect.js:7-26): the new runner's number. */
    method Effect(raw: S.Prog, options: Option<S.Options>) returns (e: EffectId)
      modifies this
      ensures e == |old(effects)|
      ensures Model() == S.CreateEffect(old(Model()), raw, options)
      ensures effects[e] == S.EffectRec(true, true, [], raw, options)
    {
      e := |effects|;
      effects := effects + [S.NewEffect(raw, options)];
    }

    /** `ref(val)` (ref.js:3-17): the new reference object. */
    method Ref(v: Value) returns (r: Value)
      modifies this
      ensures r == Object(RefObject(|old(refs)|))
      ensures Model() == S.NewRef(old(Model()), v)
      ensures refs == old(refs) + [v]
    {
      r := Object(RefObject(|refs|));
      refs := refs + [v];
    }

    /** `track(target, key)` (effect.js:70-89). */
    method Track(s: ObjectId, k: Value)
      modifies this
      ensures Model() == S.Track(old(Model()), s, k)
      ensures old(active).None? ==> Model() == old(Model())
      ensures old(active).Some? ==> Subscribed(targets, s, k, old(active).value)
      ensures Grows(old(targets), targets)
    {
      if active.None? {
        return;
      }
      var e := active.value;
      var depsMap := if s in targets then targets[s] else map[];
      var dep := if k in depsMap then depsMap[k] else [];
      if e !in dep {
        targets := targets[s := depsMap[k := dep + [e]]];
        if e < |effects| {
          effects := effects[e := effects[e].(deps := effects[e].deps + [S.DepLoc(s, k)])];
        }
      }
    }

    /** The getter of `value` (ref.js:7-10): track, then the stored value. */
    method GetValue(n: nat) returns (res: Result<Value>)
      modifies this
      ensures S.Outcome(Model(), res) == S.GetValue(old(Model()), n)
      ensures n < |refs| ==> res == Ok(refs[n])
    {
      if n >= |refs| {
        return Err(TypeError);
      }
      Track(RefObject(n), ValueKey);
      res := Ok(refs[n]);
    }

    /** The setter of `value` (ref.js:11-14): store, then trigger. */
    method SetValue(n: nat, v: Value, fuel: nat) returns (res: Result<Value>)
      modifies this
      ensures S.Outcome(Model(), res) == S.SetValue(old(Model()), n, v, fuel)
      ensures stack == old(stack)
      decreases fuel, 5
    {
      if n >= |refs| {
        return Err(TypeError);
      }
      refs := refs[n := v];
      res := Trigger(RefObject(n), ValueKey, fuel);
    }

    /** `trigger(target, key)` (effect.js:92-109): look up the subscribers and
        run, for each, its options' job if it has one and otherwise itself. */
    method Trigger(s: ObjectId, k: Value, fuel: nat) returns (res: Result<Value>)
      modifies this
      ensures S.Outcome(Model(), res) == S.Trigger(old(Model()), s, k, fuel)
      ensures stack == old(stack)
      decreases fuel, 4
    {
      if k == Undefined {
        return Ok(Undefined);
      }
      if s !in targets {
        return Err(TypeError);
      }
      var subs := Members(targets, s, k);
      var i := 0;
      while i < |subs|
        invariant 0 <= i <= |subs|
        invariant S.TriggerEach(Model(), subs, i, fuel) == S.Trigger(old(Model()), s, k, fuel)
        decreases |subs| - i
      {
        var r := Notify(subs[i], fuel);
        if r.Err? {
          return r;
        }
        i := i + 1;
      }
      res := Ok(Undefined);
    }

    /** One subscriber of `trigger` (effect.js:102-106): its options' `job`
        when there is one, otherwise the effect itself; reading `job` from
        absent options throws. */
    method Notify(e: EffectId, fuel: nat) returns (res: Result<Value>)
      modifies this
      ensures S.Outcome(Model(), res) == S.Notify(old(Model()), e, fuel)
      ensures res.Ok? ==> res.value == Undefined
      decreases fuel, 2
    {
      if e >= |effects| || effects[e].options.None? {
        return Err(TypeError);
      }
      var job := effects[e].options.value.job;
      if job.None? {
        res := RunEffect(e, fuel);
      } else if job.value.WatchJob? {
        res := RunJob(job.value.w, fuel);
      } else {
        if fuel == 0 {
          return Err(OutOfFuel);
        }
        res := Exec(job.value.body, fuel - 1);
      }
      if res.Ok? {
        res := Ok(Undefined);
      }
    }

    /** The `job` closure of watcher `w` (effect.js:40-50). */
    method RunJob(w: nat, fuel: nat) returns (res: Result<Value>)
      modifies this
      ensures S.Outcome(Model(), res) == S.RunJob(old(Model()), w, fuel)
      ensures stack == old(stack)
      decreases fuel, 1
    {
      if w >= |watchers| {
        return Err(TypeError);
      }
      var watcher := watchers[w];
      var r := RunEffect(watcher.runner, fuel);
      if r.Err? {
        return r;
      }
      if watcher.cb.None? {
        return Ok(Undefined);
      }
      var newVal := r.value;
      var oldVal := watchers[w].oldVal;
      if oldVal == newVal {
        return Ok(Undefined);
      }
      if fuel == 0 {
        return Err(OutOfFuel);
      }
      log := log + [S.Called(w, newVal, oldVal)];
      var c := Exec(watcher.cb.value, fuel - 1);
      if c.Err? {
        return c;
      }
      watchers := watchers[w := watchers[w].(oldVal := newVal)];
      res := Ok(Undefined);
    }

    /** Calling the runner of effect `e` (effect.js:8-17): push it and make it
        active, run its body, then pop and restore the active effect whatever
        the body did. */
    method RunEffect(e: EffectId, fuel: nat) returns (res: Result<Value>)
      modifies this
      ensures S.Outcome(Model(), res) == S.RunEffect(old(Model()), e, fuel)
      ensures stack == old(stack)
      ensures old(active) == S.Top(old(stack)) ==> active == old(active)
      decreases fuel, 0
    {
      if e >= |effects| {
        return Err(TypeError);
      }
      if fuel == 0 {
        return Err(OutOfFuel);
      }
      stack := stack + [e];
      active := Some(e);
      res := Exec(effects[e].raw, fuel - 1);
      // finally
      stack := if |stack| == 0 then [] else stack[..|stack| - 1];
      active := S.Top(stack);
    }

    /** Running a closure: its steps in order, stopping at the first failure;
        the result is the value of the last step. */
    method Exec(p: S.Prog, fuel: nat) returns (res: Result<Value>)
      modifies this
      ensures S.Outcome(Model(), res) == S.Exec(old(Model()), p, 0, Undefined, fuel)
      decreases fuel, 7
    {
      var i, acc := 0, Undefined;
      while i < |p|
        invariant 0 <= i <= |p|
        invariant S.Exec(Model(), p, i, acc, fuel) == S.Exec(old(Model()), p, 0, Undefined, fuel)
        decreases |p| - i
      {
        var r: Result<Value>;
        match p[i] {
          case Const(v) => r := Ok(v);
          case Read(n) => r := GetValue(n);
          case Write(n, v) =>
            r := SetValue(n, v, fuel);
            if r.Ok? {
              r := Ok(v);
            }
          case Call(e) => r := RunEffect(e, fuel);
          case TrackKey(s, k) =>
            Track(s, k);
            r := Ok(Undefined);
          case TriggerKey(s, k) => r := Trigger(s, k, fuel);
          case Throw => r := Err(Thrown);
        }
        if r.Err? {
          return r;
        }
        acc := r.value;
        i := i + 1;
      }
      res := Ok(acc);
    }

    /** `watch(source, cb, { lazy, deep, immediate })` (effect.js:28-67). */
    method Watch(src: S.Source, cb: Option<S.Prog>, opts: S.WatchOptions, fuel: nat) returns (res: Result<Value>)
      modifies this
      ensures S.Outcome(Model(), res) == S.Watch(old(Model()), src, cb, opts, fuel)
    {
      var getter: S.Prog;
      match S.ResolveGetter(src) {
        case Err(err) => return Err(err);
        case Ok(g) => getter := g;
      }
      var w := |watchers|;
      var e := Effect(getter, Some(S.Options(opts.lazy, Some(S.WatchJob(w)))));
      watchers := watchers + [S.Watcher(cb, Undefined, e)];
      if cb.Some? && Truthy(opts.immediate) {
        res := RunJob(w, fuel);
        return;
      }
      var r := RunEffect(e, fuel);
      if r.Err? {
        return r;
      }
      if cb.Some? {
        watchers := watchers[w := watchers[w].(oldVal := r.value)];
      }
      res := Ok(Undefined);
    }
  }
}

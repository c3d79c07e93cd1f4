/**
  The dependency store (`targetsMap` in reactivity/effect.js): subject ->
  property key -> the effects subscribed to that property. The outer level is
  a WeakMap in the source and an ordinary map here; each subscriber set is a
  sequence without duplicates, kept in insertion order (the order in which a
  JavaScript Set is iterated). Entries are created lazily and never removed.
 */
module Store {
  import opened Values

  /** Effects are numbered in the order they are created. */
  type EffectId = nat

  type Targets = map<ObjectId, map<Value, seq<EffectId>>>

  /** The (subject, key) pair has a subscriber set. */
  predicate HasKey(t: Targets, s: ObjectId, k: Value)
  {
    s in t && k in t[s]
  }

  /** The subscribers of (s, k); the empty sequence when there is no set. */
  function Members(t: Targets, s: ObjectId, k: Value): seq<EffectId>
  {
    if HasKey(t, s, k) then t[s][k] else []
  }

  predicate Subscribed(t: Targets, s: ObjectId, k: Value, e: EffectId)
  {
    e in Members(t, s, k)
  }

  predicate Distinct<T(==)>(q: seq<T>)
  {
    forall i, j | 0 <= i < j < |q| :: q[i] != q[j]
  }

  /** Every subscriber set holds each effect at most once (a Set). */
  ghost predicate NoDuplicates(t: Targets)
  {
    forall s, k | HasKey(t, s, k) :: Distinct(t[s][k])
  }

  /** `b` is `a` with entries added and nothing removed: every subject and
      key of `a` is still there, and every subscriber sequence has only been
      appended to. */
  ghost predicate Grows(a: Targets, b: Targets)
  {
    forall s | s in a :: s in b && forall k | k in a[s] :: k in b[s] && a[s][k] <= b[s][k]
  }

  /** The store part of `track` (reactivity/effect.js:75-88): create the
      subject's map and the key's set when missing, then add `e` if it is not
      already a member. */
  function Subscribe(t: Targets, s: ObjectId, k: Value, e: EffectId): (r: Targets)
    ensures Subscribed(r, s, k, e)
    ensures Grows(t, r)
    ensures Subscribed(t, s, k, e) ==> r == t
    ensures !Subscribed(t, s, k, e) ==> Members(r, s, k) == Members(t, s, k) + [e]
    ensures r.Keys == t.Keys + {s}
    ensures forall s', k' | (s', k') != (s, k) :: HasKey(r, s', k') == HasKey(t, s', k')
    ensures forall s', k' | (s', k') != (s, k) :: Members(r, s', k') == Members(t, s', k')
    ensures NoDuplicates(t) ==> NoDuplicates(r)
  {
    var inner := if s in t then t[s] else map[];
    var members := if k in inner then inner[k] else [];
    if e in members then t else t[s := inner[k := members + [e]]]
  }

  /** The lookup `trigger` performs (reactivity/effect.js:93-97): an undefined
      key looks nothing up; otherwise the subject's map is dereferenced, which
      throws when the subject was never tracked. */
  function Lookup(t: Targets, s: ObjectId, k: Value): (r: Result<seq<EffectId>>)
    ensures k == Undefined ==> r == Ok([])
    ensures k != Undefined && s !in t ==> r == Err(TypeError)
    ensures k != Undefined && s in t ==> r == Ok(Members(t, s, k))
  {
    if k == Undefined then Ok([])
    else if s !in t then Err(TypeError)
    else Ok(Members(t, s, k))
  }

  lemma GrowsReflexive(t: Targets)
    ensures Grows(t, t)
  {
  }

  lemma GrowsTransitive(a: Targets, b: Targets, c: Targets)
    requires Grows(a, b) && Grows(b, c)
    ensures Grows(a, c)
  {
    forall s | s in a
      ensures s in c && forall k | k in a[s] :: k in c[s] && a[s][k] <= c[s][k]
    {
      forall k | k in a[s]
        ensures k in c[s] && a[s][k] <= c[s][k]
      {
        assert a[s][k] <= b[s][k] <= c[s][k];
      }
    }
  }

  /** Growth keeps every subscription. */
  lemma SubscribedAfterGrowth(a: Targets, b: Targets, s: ObjectId, k: Value, e: EffectId)
    requires Grows(a, b) && Subscribed(a, s, k, e)
    ensures Subscribed(b, s, k, e)
  {
    assert a[s][k] <= b[s][k];
  }

  /** Subscribing is idempotent: a second identical `track` changes nothing. */
  lemma SubscribeIdempotent(t: Targets, s: ObjectId, k: Value, e: EffectId)
    ensures Subscribe(Subscribe(t, s, k, e), s, k, e) == Subscribe(t, s, k, e)
  {
  }

  /** Once the store grows, every lookup that found `e` still finds it, and a
      lookup of a subject that was tracked no longer fails. */
  lemma LookupAfterGrowth(a: Targets, b: Targets, s: ObjectId, k: Value, e: EffectId)
    requires Grows(a, b)
    ensures Lookup(a, s, k).Ok? ==> Lookup(b, s, k).Ok?
    ensures Lookup(a, s, k).Ok? && e in Lookup(a, s, k).value ==> e in Lookup(b, s, k).value
  {
    if k != Undefined && s in a && HasKey(a, s, k) {
      assert a[s][k] <= b[s][k];
    }
  }

  /** After `e` subscribes to (s, k) with a defined key, the lookup done by
      `trigger` succeeds and returns `e`; the lookup never fails for a subject
      that was subscribed to under any key. */
  lemma LookupAfterSubscribe(t: Targets, s: ObjectId, k: Value, e: EffectId, k': Value)
    requires k != Undefined
    ensures Lookup(Subscribe(t, s, k, e), s, k) == Ok(Members(Subscribe(t, s, k, e), s, k))
    ensures e in Lookup(Subscribe(t, s, k, e), s, k).value
    ensures Lookup(Subscribe(t, s, k, e), s, k').Ok?
  {
  }
}

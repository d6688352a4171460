/**
  How old can a cached answer be when the database methods of src/core/db interleave freely? A method
  talks to the collection in one step and to the cache in a later one, so a slow call may put back a
  value that has been replaced meanwhile. What remains true is a bound on its age.
*/
module Staleness {
  import opened TtlCache
  import C = ConcurrentCache

  /** What a call still has to do to the cache; `at` and `asOf` record when it left the collection. */
  datatype Pending<+V> =
    | Fill(key: string, value: V, at: nat, asOf: int)   // cache.Set of what was read or written
    | Drop(key: string)                                 // cache.Delete after a write
    | DropAll                                           // cache.Clear

  datatype Action<+V> =
    | DbRead(tid: nat, key: string)                              // FindOne, or one step of a cursor
    | DbWrite(tid: nat, key: string, value: V, through: bool)    // upsert; then Set or Delete
    | DbDelete(tid: nat, key: string)
    | DbWipe(tid: nat)
    | Finish(tid: nat)                                           // the call's step on the cache
    | Cache(a: C.Action<V>)                                      // lookups, evictions, time

  /** What the collection held, and what the clock read, at one moment. */
  datatype Moment<V> = Moment(store: map<string, V>, clock: int)

  /** `history[i]` is the moment after i steps; `cacheActs` are the steps the cache has seen. */
  datatype World<V> = World(history: seq<Moment<V>>, pending: map<nat, Pending<V>>, cacheActs: seq<C.Action<V>>)
  {
    function Now(): Moment<V>
      requires history != []
    {
      history[|history| - 1]
    }
  }

  /** The effect of a step on the cache, as a step of ConcurrentCache; Tick(0) when it has none. */
  function CacheStep<V>(w: World<V>, a: Action<V>, ttl: int): C.Action<V> {
    match a
    case Finish(tid) =>
      if tid !in w.pending then C.Tick(0) else
      (match w.pending[tid]
       case Fill(key, value, _, _) => C.Write(key, value, ttl)
       case Drop(key) => C.Remove(key)
       case DropAll => C.RemoveAll)
    case Cache(c) => if c.Write? || c.Remove? || c.RemoveAll? then C.Tick(0) else c
    case _ => C.Tick(0)
  }

  function StoreStep<V>(store: map<string, V>, a: Action<V>): map<string, V> {
    match a
    case DbWrite(_, key, value, _) => store[key := value]
    case DbDelete(_, key) => store - {key}
    case DbWipe(_) => map[]
    case _ => store
  }

  function PendingStep<V>(w: World<V>, a: Action<V>): map<nat, Pending<V>>
    requires w.history != []
  {
    var n, now := |w.history|, w.Now();
    match a
    case DbRead(tid, key) =>
      if key in now.store then w.pending[tid := Fill(key, now.store[key], n - 1, now.clock)] else w.pending
    case DbWrite(tid, key, value, through) =>
      w.pending[tid := if through then Fill(key, value, n, now.clock) else Drop(key)]
    case DbDelete(tid, key) => w.pending[tid := Drop(key)]
    case DbWipe(tid) => w.pending[tid := DropAll]
    case Finish(tid) => w.pending - {tid}
    case Cache(_) => w.pending
  }

  /** A goroutine makes one call at a time; a call it is not ready for does not happen. */
  function Effective<V>(w: World<V>, a: Action<V>): Action<V> {
    if (a.DbRead? || a.DbWrite? || a.DbDelete? || a.DbWipe?) && a.tid in w.pending then Cache(C.Tick(0)) else a
  }

  function Step<V>(w: World<V>, a: Action<V>, ttl: int): (r: World<V>)
    requires w.history != []
  {
    var e, now := Effective(w, a), w.Now();
    var c := CacheStep(w, e, ttl);
    World(w.history + [Moment(StoreStep(now.store, e), now.clock + if c.Tick? then c.d else 0)],
          PendingStep(w, e), w.cacheActs + [c])
  }

  function Run<V>(t0: int, acts: seq<Action<V>>, ttl: int): (w: World<V>)
    ensures |w.cacheActs| == |acts| && |w.history| == |acts| + 1
  {
    if acts == [] then World([Moment(map[], t0)], map[], [])
    else var n := |acts| - 1; Step(Run(t0, acts[..n], ttl), acts[n], ttl)
  }

  ghost predicate TimelyStep<V>(w: World<V>, a: Action<V>, d: int)
    requires w.history != []
  {
    a.Finish? && a.tid in w.pending && w.pending[a.tid].Fill? ==> w.Now().clock <= w.pending[a.tid].asOf + d
  }

  /** `d` bounds the delay between a call's database step and its cache.Set. */
  ghost predicate Timely<V>(t0: int, acts: seq<Action<V>>, ttl: int, d: int) {
    acts == [] ||
    var n := |acts| - 1;
    Timely(t0, acts[..n], ttl, d) && TimelyStep(Run(t0, acts[..n], ttl), acts[n], d)
  }

  /** At moment `i` the collection held `value` under `key`, and the clock read at least `t`. */
  ghost predicate HeldAt<V>(history: seq<Moment<V>>, i: nat, key: string, value: V, t: int) {
    && i < |history|
    && key in history[i].store && history[i].store[key] == value && t <= history[i].clock
  }

  ghost predicate WasStored<V>(history: seq<Moment<V>>, key: string, value: V, t: int) {
    exists i: nat :: HeldAt(history, i, key, value, t)
  }

  lemma WasStoredFrame<V>(history: seq<Moment<V>>, longer: seq<Moment<V>>, key: string, value: V, t: int, earlier: int)
    requires WasStored(history, key, value, t) && earlier <= t && history <= longer
    ensures WasStored(longer, key, value, earlier)
  {
    var i: nat :| HeldAt(history, i, key, value, t);
    assert HeldAt(longer, i, key, value, earlier);
  }

  /** What waits to be cached was stored when its call left the collection. */
  ghost predicate PendingHeld<V>(w: World<V>) {
    forall tid | tid in w.pending && w.pending[tid].Fill? ::
      var p := w.pending[tid]; HeldAt(w.history, p.at, p.key, p.value, p.asOf)
  }

  /** What was written to the cache was stored no longer than ttl + d before it expires. */
  ghost predicate CachedRecent<V>(t0: int, w: World<V>, ttl: int, d: int) {
    var written := C.Written(t0, w.cacheActs);
    forall k | k in written :: WasStored(w.history, k, written[k].Value, written[k].Expiration - ttl - d)
  }

  ghost predicate Inv<V>(t0: int, w: World<V>, ttl: int, d: int) {
    && w.history != [] && w.Now().clock == C.ClockAfter(t0, w.cacheActs)
    && PendingHeld(w) && CachedRecent(t0, w, ttl, d)
  }

  lemma WrittenSnoc<V>(t0: int, acts: seq<C.Action<V>>, a: C.Action<V>)
    ensures C.ClockAfter(t0, acts + [a]) == C.ClockAfter(t0, acts) + if a.Tick? then a.d else 0
    ensures C.Written(t0, acts + [a]) == C.WrittenStep(C.Written(t0, acts), a, C.ClockAfter(t0, acts))
  {
    assert (acts + [a])[..|acts|] == acts;
  }

  lemma StepKeepsClock<V>(t0: int, w: World<V>, a: Action<V>, ttl: int)
    requires w.history != [] && w.Now().clock == C.ClockAfter(t0, w.cacheActs)
    ensures var r := Step(w, a, ttl); r.history != [] && r.Now().clock == C.ClockAfter(t0, r.cacheActs)
  {
    WrittenSnoc(t0, w.cacheActs, CacheStep(w, Effective(w, a), ttl));
  }

  lemma StepKeepsPending<V>(w: World<V>, a: Action<V>, ttl: int)
    requires w.history != [] && PendingHeld(w)
    ensures PendingHeld(Step(w, a, ttl))
  {
    var r := Step(w, a, ttl);
    assert r.history[..|w.history|] == w.history;
  }

  /** A cache.Set that comes within d of its database step caches something stored recently. */
  lemma FillIsRecent<V>(t0: int, w: World<V>, tid: nat, ttl: int, d: int)
    requires Inv(t0, w, ttl, d) && TimelyStep(w, Finish(tid), d) && tid in w.pending && w.pending[tid].Fill?
    ensures CachedRecent(t0, Step(w, Finish(tid), ttl), ttl, d)
  {
    var r, p := Step(w, Finish(tid), ttl), w.pending[tid];
    WrittenSnoc(t0, w.cacheActs, C.Write(p.key, p.value, ttl));
    var before, now := C.Written(t0, w.cacheActs), C.Written(t0, r.cacheActs);
    assert HeldAt(w.history, p.at, p.key, p.value, p.asOf);
    WasStoredFrame(w.history, r.history, p.key, p.value, p.asOf, now[p.key].Expiration - ttl - d);
    forall k | k in now && k != p.key
      ensures WasStored(r.history, k, now[k].Value, now[k].Expiration - ttl - d)
    {
      var t := before[k].Expiration - ttl - d;
      WasStoredFrame(w.history, r.history, k, before[k].Value, t, t);
    }
  }

  /** A step that sets nothing in the cache leaves only what was there. */
  lemma OthersStayRecent<V>(t0: int, w: World<V>, a: Action<V>, ttl: int, d: int)
    requires Inv(t0, w, ttl, d) && !(a.Finish? && a.tid in w.pending && w.pending[a.tid].Fill?)
    ensures CachedRecent(t0, Step(w, a, ttl), ttl, d)
  {
    var r, c := Step(w, a, ttl), CacheStep(w, Effective(w, a), ttl);
    WrittenSnoc(t0, w.cacheActs, c);
    var before, now := C.Written(t0, w.cacheActs), C.Written(t0, r.cacheActs);
    assert !c.Write?;
    forall k | k in now
      ensures WasStored(r.history, k, now[k].Value, now[k].Expiration - ttl - d)
    {
      var t := before[k].Expiration - ttl - d;
      WasStoredFrame(w.history, r.history, k, before[k].Value, t, t);
    }
  }

  lemma StepKeepsInv<V>(t0: int, w: World<V>, a: Action<V>, ttl: int, d: int)
    requires Inv(t0, w, ttl, d) && TimelyStep(w, a, d)
    ensures Inv(t0, Step(w, a, ttl), ttl, d)
  {
    StepKeepsPending(w, a, ttl);
    StepKeepsClock(t0, w, a, ttl);
    if a.Finish? && a.tid in w.pending && w.pending[a.tid].Fill? {
      FillIsRecent(t0, w, a.tid, ttl, d);
    } else {
      OthersStayRecent(t0, w, a, ttl, d);
    }
  }

  lemma {:induction false} InvHolds<V>(t0: int, acts: seq<Action<V>>, ttl: int, d: int)
    requires Timely(t0, acts, ttl, d)
    ensures Inv(t0, Run(t0, acts, ttl), ttl, d)
  {
    if acts != [] {
      var n := |acts| - 1;
      InvHolds(t0, acts[..n], ttl, d);
      StepKeepsInv(t0, Run(t0, acts[..n], ttl), acts[n], ttl, d);
    }
  }

  /** What holds of a run holds of its beginning, whose history is the beginning of the history. */
  lemma {:induction false} Prefix<V>(t0: int, acts: seq<Action<V>>, ttl: int, d: int, i: nat)
    requires Timely(t0, acts, ttl, d) && i <= |acts|
    ensures Timely(t0, acts[..i], ttl, d)
    ensures var p, w := Run(t0, acts[..i], ttl), Run(t0, acts, ttl);
            p.history == w.history[..i + 1] && p.cacheActs == w.cacheActs[..i]
    decreases |acts|
  {
    if i < |acts| {
      Prefix(t0, acts[..|acts| - 1], ttl, d, i);
      assert acts[..|acts| - 1][..i] == acts[..i];
    } else {
      assert acts[..i] == acts;
    }
  }

  lemma HitIsRecent<V>(t0: int, w: World<V>, ttl: int, d: int, key: string, value: V, t: int)
    requires Inv(t0, w, ttl, d)
    requires C.Expected(C.Written(t0, w.cacheActs), key, t) == Hit(value)
    ensures WasStored(w.history, key, value, t - ttl - d)
  {
    var item := C.Written(t0, w.cacheActs)[key];
    WasStoredFrame(w.history, w.history, key, value, item.Expiration - ttl - d, t - ttl - d);
  }

  lemma HitAtStep<V>(t0: int, acts: seq<Action<V>>, ttl: int, d: int, r: nat, key: string, value: V, t: int)
    requires Timely(t0, acts, ttl, d) && r < |acts|
    requires C.Expected(C.Written(t0, Run(t0, acts, ttl).cacheActs[..r]), key, t) == Hit(value)
    ensures WasStored(Run(t0, acts, ttl).history[..r + 1], key, value, t - ttl - d)
  {
    Prefix(t0, acts, ttl, d, r);
    InvHolds(t0, acts[..r], ttl, d);
    HitIsRecent(t0, Run(t0, acts[..r], ttl), ttl, d, key, value, t);
  }

  /** The state of goroutine `tid`'s lookup after the run. */
  function LookupOf<V>(t0: int, acts: seq<Action<V>>, ttl: int, tid: nat): C.Pc<V> {
    C.Run(t0, Run(t0, acts, ttl).cacheActs).PcOf(tid)
  }

  /**
    Bounded staleness: in every interleaving of readers, writers, invalidations, wipes, fills and
    evictions, a value a hit serves at time T was in the collection at some moment no earlier than
    T - ttl - d and no later than the lookup.
  */
  lemma BoundedStaleness<V>(t0: int, acts: seq<Action<V>>, ttl: int, d: int, tid: nat)
    requires Timely(t0, acts, ttl, d)
    requires var pc := LookupOf(t0, acts, ttl, tid); pc.GetDone? && pc.result.Hit?
    ensures var pc := LookupOf(t0, acts, ttl, tid);
            && pc.readAt < |acts|
            && WasStored(Run(t0, acts, ttl).history[..pc.readAt + 1], pc.key, pc.result.value, pc.checkedAt - ttl - d)
  {
    C.GetIsExact(t0, Run(t0, acts, ttl).cacheActs, tid);
    var pc := LookupOf(t0, acts, ttl, tid);
    HitAtStep(t0, acts, ttl, d, pc.readAt, pc.key, pc.result.value, pc.checkedAt);
  }

  // ----- when a hit is right -----

  /** Will this cache step settle what is cached for `k`? */
  predicate Concerns<V>(p: Pending<V>, k: string) {
    match p
    case Fill(key, _, _, _) => key == k
    case Drop(key) => key == k
    case DropAll => true
  }

  /** No call that concerns `k` is between its database step and its cache step. */
  ghost predicate Quiet<V>(w: World<V>, k: string) {
    forall tid | tid in w.pending :: !Concerns(w.pending[tid], k)
  }

  ghost predicate Stores<V>(w: World<V>, k: string, value: V)
    requires w.history != []
  {
    k in w.Now().store && w.Now().store[k] == value
  }

  /** For every key that is quiet, a lookup now would give what the collection holds, or miss. */
  ghost predicate Right<V>(t0: int, w: World<V>)
    requires w.history != []
  {
    forall k | Quiet(w, k) ::
      var answer := C.Expected(C.Written(t0, w.cacheActs), k, w.Now().clock); answer.Hit? ==> Stores(w, k, answer.value)
  }

  /** That, at every moment of the run. */
  ghost predicate Coherent<V>(t0: int, acts: seq<Action<V>>, ttl: int) {
    Right(t0, Run(t0, acts, ttl)) && (acts != [] ==> Coherent(t0, acts[..|acts| - 1], ttl))
  }

  /** A cache.Set comes while its value is still the stored one, or while another call on its key is to follow. */
  ghost predicate CoveredStep<V>(w: World<V>, a: Action<V>)
    requires w.history != []
  {
    a.Finish? && a.tid in w.pending && w.pending[a.tid].Fill? ==>
      var p := w.pending[a.tid];
      Stores(w, p.key, p.value) || exists other :: other in w.pending && other != a.tid && Concerns(w.pending[other], p.key)
  }

  ghost predicate Covered<V>(t0: int, acts: seq<Action<V>>, ttl: int) {
    acts != [] ==>
      var n := |acts| - 1;
      Covered(t0, acts[..n], ttl) && CoveredStep(Run(t0, acts[..n], ttl), acts[n])
  }

  /** Whatever is cached for a quiet key is stored. */
  ghost predicate Settled<V>(t0: int, w: World<V>)
    requires w.history != []
  {
    var written := C.Written(t0, w.cacheActs);
    forall k | k in written && Quiet(w, k) :: Stores(w, k, written[k].Value)
  }

  /** A key that is quiet after a step that settles nothing of it was quiet before, and holds what it held. */
  lemma QuietBefore<V>(w: World<V>, a: Action<V>, ttl: int, k: string)
    requires w.history != [] && Quiet(Step(w, a, ttl), k)
    requires a.Finish? && a.tid in w.pending ==> !Concerns(w.pending[a.tid], k)
    ensures Quiet(w, k)
    ensures var r := Step(w, a, ttl);
            && (k in r.Now().store <==> k in w.Now().store)
            && (k in w.Now().store ==> r.Now().store[k] == w.Now().store[k])
  {
    var r := Step(w, a, ttl);
    forall tid | tid in w.pending ensures !Concerns(w.pending[tid], k) {
      if !(a.Finish? && a.tid == tid) {
        assert tid in r.pending && r.pending[tid] == w.pending[tid];
      }
    }
    if Effective(w, a) == a && (a.DbWrite? || a.DbDelete? || a.DbWipe?) {
      assert a.tid in r.pending;
    }
  }

  lemma StepSettles<V>(t0: int, w: World<V>, a: Action<V>, ttl: int)
    requires w.history != [] && Settled(t0, w) && CoveredStep(w, a)
    ensures Settled(t0, Step(w, a, ttl))
  {
    var r := Step(w, a, ttl);
    WrittenSnoc(t0, w.cacheActs, CacheStep(w, Effective(w, a), ttl));
    var written := C.Written(t0, r.cacheActs);
    forall k | k in written && Quiet(r, k) ensures Stores(r, k, written[k].Value) {
      if a.Finish? && a.tid in w.pending && Concerns(w.pending[a.tid], k) {
        forall other | other in w.pending && other != a.tid ensures !Concerns(w.pending[other], k) {
          assert other in r.pending;
        }
      } else {
        QuietBefore(w, a, ttl, k);
      }
    }
  }

  lemma {:induction false} CoveredSettles<V>(t0: int, acts: seq<Action<V>>, ttl: int)
    requires Covered(t0, acts, ttl)
    ensures Settled(t0, Run(t0, acts, ttl))
  {
    if acts != [] {
      var n := |acts| - 1;
      CoveredSettles(t0, acts[..n], ttl);
      StepSettles(t0, Run(t0, acts[..n], ttl), acts[n], ttl);
    }
  }

  lemma {:induction false} ClockIsCacheClock<V>(t0: int, acts: seq<Action<V>>, ttl: int)
    ensures var w := Run(t0, acts, ttl); w.Now().clock == C.ClockAfter(t0, w.cacheActs)
  {
    if acts != [] {
      var n := |acts| - 1;
      ClockIsCacheClock(t0, acts[..n], ttl);
      StepKeepsClock(t0, Run(t0, acts[..n], ttl), acts[n], ttl);
    }
  }

  /** A cache.Set that is not covered leaves a wrong, live entry behind, and nobody to settle it. */
  lemma UncoveredIsWrong<V>(t0: int, w: World<V>, a: Action<V>, ttl: int)
    requires w.history != [] && w.Now().clock == C.ClockAfter(t0, w.cacheActs) && !CoveredStep(w, a) && ttl >= 0
    ensures var r, p := Step(w, a, ttl), w.pending[a.tid];
            && Quiet(r, p.key) && !Stores(r, p.key, p.value)
            && C.Expected(C.Written(t0, r.cacheActs), p.key, r.Now().clock) == Hit(p.value)
            && !Right(t0, r)
  {
    var r, p := Step(w, a, ttl), w.pending[a.tid];
    WrittenSnoc(t0, w.cacheActs, C.Write(p.key, p.value, ttl));
    assert Quiet(r, p.key);
  }

  /**
    Coherence under concurrency, exactly. At every moment a lookup of a key that no unfinished call concerns
    gives what is stored, or misses, if and only if every cache.Set of the run comes while its value is still
    stored or while another call on its key has its cache step still to make.
  */
  lemma {:induction false} CoherentIffCovered<V>(t0: int, acts: seq<Action<V>>, ttl: int)
    requires ttl >= 0
    ensures Coherent(t0, acts, ttl) <==> Covered(t0, acts, ttl)
  {
    if Covered(t0, acts, ttl) {
      CoveredSettles(t0, acts, ttl);
    }
    if acts != [] {
      var n := |acts| - 1;
      CoherentIffCovered(t0, acts[..n], ttl);
      ClockIsCacheClock(t0, acts[..n], ttl);
      if !CoveredStep(Run(t0, acts[..n], ttl), acts[n]) {
        UncoveredIsWrong(t0, Run(t0, acts[..n], ttl), acts[n], ttl);
      }
    }
  }

  /** A database step that finds no unfinished call concerning its key. */
  ghost predicate AloneStep<V>(w: World<V>, a: Action<V>) {
    match a
    case DbRead(_, key) => Quiet(w, key)
    case DbWrite(_, key, _, _) => Quiet(w, key)
    case DbDelete(_, key) => Quiet(w, key)
    case DbWipe(_) => w.pending == map[]
    case _ => true
  }

  ghost predicate Alone<V>(t0: int, acts: seq<Action<V>>, ttl: int) {
    acts != [] ==>
      var n := |acts| - 1;
      Alone(t0, acts[..n], ttl) && AloneStep(Run(t0, acts[..n], ttl), acts[n])
  }

  ghost predicate PendingStored<V>(w: World<V>)
    requires w.history != []
  {
    forall tid | tid in w.pending && w.pending[tid].Fill? :: Stores(w, w.pending[tid].key, w.pending[tid].value)
  }

  /** So it is enough that calls on one key do not overlap, whatever calls on other keys do. */
  lemma {:induction false} AloneIsCovered<V>(t0: int, acts: seq<Action<V>>, ttl: int)
    requires Alone(t0, acts, ttl)
    ensures Covered(t0, acts, ttl) && PendingStored(Run(t0, acts, ttl))
  {
    if acts != [] {
      AloneIsCovered(t0, acts[..|acts| - 1], ttl);
      AloneKeepsStored(Run(t0, acts[..|acts| - 1], ttl), acts[|acts| - 1], ttl);
    }
  }

  lemma AloneKeepsStored<V>(w: World<V>, a: Action<V>, ttl: int)
    requires w.history != [] && PendingStored(w) && AloneStep(w, a)
    ensures PendingStored(Step(w, a, ttl))
  {
    var r := Step(w, a, ttl);
    forall tid | tid in r.pending && r.pending[tid].Fill?
      ensures Stores(r, r.pending[tid].key, r.pending[tid].value)
    {
      if tid in w.pending && r.pending[tid] == w.pending[tid] {
        assert Stores(w, w.pending[tid].key, w.pending[tid].value);
        assert Concerns(w.pending[tid], w.pending[tid].key);
      }
    }
  }

  lemma {:induction false} CoveredPrefix<V>(t0: int, acts: seq<Action<V>>, ttl: int, i: nat)
    requires Covered(t0, acts, ttl) && i <= |acts|
    ensures Covered(t0, acts[..i], ttl)
    ensures Run(t0, acts[..i], ttl).cacheActs == Run(t0, acts, ttl).cacheActs[..i]
    decreases |acts|
  {
    if i < |acts| {
      CoveredPrefix(t0, acts[..|acts| - 1], ttl, i);
      assert acts[..|acts| - 1][..i] == acts[..i];
    } else {
      assert acts[..i] == acts;
    }
  }

  /** What a finished hit of a covered run served was the stored value at its read, if its key was quiet then. */
  lemma CoveredHitsAreRight<V>(t0: int, acts: seq<Action<V>>, ttl: int, tid: nat)
    requires Covered(t0, acts, ttl)
    requires var pc := LookupOf(t0, acts, ttl, tid); pc.GetDone? && pc.result.Hit?
    ensures var pc := LookupOf(t0, acts, ttl, tid);
            && pc.readAt < |acts|
            && var w := Run(t0, acts[..pc.readAt], ttl); Quiet(w, pc.key) ==> Stores(w, pc.key, pc.result.value)
  {
    C.GetIsExact(t0, Run(t0, acts, ttl).cacheActs, tid);
    var r := LookupOf(t0, acts, ttl, tid).readAt;
    CoveredPrefix(t0, acts, ttl, r);
    CoveredSettles(t0, acts[..r], ttl);
  }

  /** A wrong entry is served: any goroutine free to look the key up gets it. */
  lemma WrongEntryIsServed<V>(t0: int, acts: seq<Action<V>>, ttl: int, a: Action<V>, tid: nat)
    requires !CoveredStep(Run(t0, acts, ttl), a) && ttl >= 0
    requires LookupOf(t0, acts, ttl, tid).Idle?
    ensures var p := Run(t0, acts, ttl).pending[a.tid];
            var served := acts + [a] + [Cache(C.Read(tid, p.key))] + [Cache(C.Check(tid))];
            && LookupOf(t0, served, ttl, tid).GetDone? && LookupOf(t0, served, ttl, tid).result == Hit(p.value)
            && Quiet(Run(t0, served, ttl), p.key) && !Stores(Run(t0, served, ttl), p.key, p.value)
  {
    var w := Run(t0, acts, ttl);
    var p := w.pending[a.tid];
    ClockIsCacheClock(t0, acts, ttl);
    UncoveredIsWrong(t0, w, a, ttl);
    var cs := w.cacheActs;
    C.InvHolds(t0, cs);
    RunSnoc(t0, acts, a, ttl);
    RunSnoc(t0, acts + [a], Cache(C.Read(tid, p.key)), ttl);
    RunSnoc(t0, acts + [a] + [Cache(C.Read(tid, p.key))], Cache(C.Check(tid)), ttl);
    SetThenGet(t0, cs, p.key, p.value, ttl, tid);
  }

  lemma RunSnoc<V>(t0: int, acts: seq<Action<V>>, a: Action<V>, ttl: int)
    ensures Run(t0, acts + [a], ttl) == Step(Run(t0, acts, ttl), a, ttl)
  {
    assert (acts + [a])[..|acts|] == acts;
  }

  /** In the cache, a Get after a Set finds what was set. */
  lemma SetThenGet<V>(t0: int, acts: seq<C.Action<V>>, key: string, value: V, ttl: int, tid: nat)
    requires ttl >= 0 && C.Run(t0, acts).PcOf(tid).Idle?
    ensures var pc := C.Run(t0, acts + [C.Write(key, value, ttl)] + [C.Read(tid, key)] + [C.Check(tid)]).PcOf(tid);
            pc.GetDone? && pc.key == key && pc.result == Hit(value)
  {
    var s := C.Run(t0, acts);
    C.RunTo(t0, acts, s, C.Write(key, value, ttl));
    var b := acts + [C.Write(key, value, ttl)];
    var s1 := s.(data := s.data[key := Item(value, s.now + ttl)]);
    C.RunTo(t0, b, s1, C.Read(tid, key));
    C.ReadFinds(s1, tid, key, |b|);
    C.RunTo(t0, b + [C.Read(tid, key)], C.Step(s1, C.Read(tid, key), |b|), C.Check(tid));
  }

  // ----- what one call does -----

  /** What a lookup of `k` would get now. */
  ghost function Answer<V>(t0: int, w: World<V>, k: string): Lookup<V>
    requires w.history != []
  {
    C.Expected(C.Written(t0, w.cacheActs), k, w.Now().clock)
  }

  /** What the cache has been told once `p` is done. */
  function Told<V>(written: map<string, Item<V>>, p: Pending<V>, now: int, ttl: int): map<string, Item<V>> {
    match p
    case Fill(key, value, _, _) => written[key := Item(value, now + ttl)]
    case Drop(key) => written - {key}
    case DropAll => map[]
  }

  /** A database step of goroutine `tid` that leaves `p` to be done and the collection at `store`. */
  ghost predicate Leaves<V>(w: World<V>, a: Action<V>, ttl: int, tid: nat, p: Pending<V>, store: map<string, V>)
    requires w.history != []
  {
    var w1 := Step(w, a, ttl);
    && w1.pending == w.pending[tid := p] && w1.Now() == Moment(store, w.Now().clock)
    && w1.cacheActs == w.cacheActs + [C.Tick(0)]
  }

  lemma FinishTells<V>(w: World<V>, tid: nat, ttl: int)
    requires w.history != [] && tid in w.pending
    ensures var r := Step(w, Finish(tid), ttl);
            && r.Now() == w.Now() && r.pending == w.pending - {tid}
            && |r.cacheActs| == |w.cacheActs| + 1 && r.cacheActs == w.cacheActs + [CacheStep(w, Finish(tid), ttl)]
            && forall written, now :: C.WrittenStep(written, CacheStep(w, Finish(tid), ttl), now) == Told(written, w.pending[tid], now, ttl)
  {
  }

  /** What the cache step after such a database step adds to the cache's run, seen from before both. */
  lemma OneCallWritten<V>(t0: int, w: World<V>, w1: World<V>, ttl: int, tid: nat, p: Pending<V>)
    requires w.history != [] && w1.history != [] && w1.pending == w.pending[tid := p]
    requires w1.cacheActs == w.cacheActs + [C.Tick(0)] && w1.Now().clock == w.Now().clock
    requires C.ClockAfter(t0, w.cacheActs) == w.Now().clock
    ensures C.Written(t0, w1.cacheActs + [CacheStep(w1, Finish(tid), ttl)]) == Told(C.Written(t0, w.cacheActs), p, w.Now().clock, ttl)
  {
    FinishTells(w1, tid, ttl);
    WrittenSnoc(t0, w.cacheActs, C.Tick(0));
    WrittenSnoc(t0, w1.cacheActs, CacheStep(w1, Finish(tid), ttl));
  }

  /** A call alone: its database step, and then its cache step. */
  lemma OneCall<V>(t0: int, acts: seq<Action<V>>, ttl: int, a: Action<V>, tid: nat, p: Pending<V>, store: map<string, V>)
    requires tid !in Run(t0, acts, ttl).pending && Leaves(Run(t0, acts, ttl), a, ttl, tid, p, store)
    ensures var w, r := Run(t0, acts, ttl), Run(t0, acts + [a] + [Finish(tid)], ttl);
            && r.Now() == Moment(store, w.Now().clock) && r.pending == w.pending
            && C.Written(t0, r.cacheActs) == Told(C.Written(t0, w.cacheActs), p, w.Now().clock, ttl)
  {
    var w := Run(t0, acts, ttl);
    var w1 := Step(w, a, ttl);
    RunSnoc(t0, acts, a, ttl);
    RunSnoc(t0, acts + [a], Finish(tid), ttl);
    ClockIsCacheClock(t0, acts, ttl);
    OneCallWritten(t0, w, w1, ttl, tid, p);
    FinishTells(w1, tid, ttl);
    assert w.pending[tid := p] - {tid} == w.pending;
  }

  /** A read alone fills the cache: what the collection holds is what a lookup gets. */
  lemma ReadFills<V>(t0: int, acts: seq<Action<V>>, ttl: nat, tid: nat, key: string)
    requires tid !in Run(t0, acts, ttl).pending && key in Run(t0, acts, ttl).Now().store
    ensures var w, r := Run(t0, acts, ttl), Run(t0, acts + [DbRead(tid, key)] + [Finish(tid)], ttl);
            && r.Now().store == w.Now().store && r.pending == w.pending
            && Answer(t0, r, key) == Hit(w.Now().store[key])
  {
    var w := Run(t0, acts, ttl);
    var now := w.Now();
    OneCall(t0, acts, ttl, DbRead(tid, key), tid, Fill(key, now.store[key], |w.history| - 1, now.clock), now.store);
  }

  /** A write alone stores the value, and a lookup gets it when the write goes through, and misses otherwise. */
  lemma WriteStores<V>(t0: int, acts: seq<Action<V>>, ttl: nat, tid: nat, key: string, value: V, through: bool)
    requires tid !in Run(t0, acts, ttl).pending
    ensures var w, r := Run(t0, acts, ttl), Run(t0, acts + [DbWrite(tid, key, value, through)] + [Finish(tid)], ttl);
            && r.Now().store == w.Now().store[key := value] && r.pending == w.pending
            && Answer(t0, r, key) == if through then Hit(value) else Miss
  {
    var w := Run(t0, acts, ttl);
    var p := if through then Fill(key, value, |w.history|, w.Now().clock) else Drop(key);
    OneCall(t0, acts, ttl, DbWrite(tid, key, value, through), tid, p, w.Now().store[key := value]);
  }

  /** A deletion alone takes the key out of the collection and the cache. */
  lemma DeleteDeletes<V>(t0: int, acts: seq<Action<V>>, ttl: nat, tid: nat, key: string)
    requires tid !in Run(t0, acts, ttl).pending
    ensures var w, r := Run(t0, acts, ttl), Run(t0, acts + [DbDelete(tid, key)] + [Finish(tid)], ttl);
            r.Now().store == w.Now().store - {key} && r.pending == w.pending && Answer(t0, r, key) == Miss
  {
    OneCall(t0, acts, ttl, DbDelete(tid, key), tid, Drop(key), Run(t0, acts, ttl).Now().store - {key});
  }

  lemma WipeLeaves<V>(w: World<V>, ttl: int, tid: nat, empty: map<string, V>)
    requires w.history != [] && tid !in w.pending && empty == map[]
    ensures Leaves(w, DbWipe(tid), ttl, tid, DropAll, empty)
  {
  }

  /** A wipe alone empties both. */
  lemma WipeEmpties<V>(t0: int, acts: seq<Action<V>>, ttl: nat, tid: nat)
    requires tid !in Run(t0, acts, ttl).pending
    ensures var w, r := Run(t0, acts, ttl), Run(t0, acts + [DbWipe(tid)] + [Finish(tid)], ttl);
            r.Now().store == map[] && r.pending == w.pending && forall key :: Answer(t0, r, key) == Miss
  {
    var empty: map<string, V> := map[];
    WipeLeaves(Run(t0, acts, ttl), ttl, tid, empty);
    OneCall(t0, acts, ttl, DbWipe(tid), tid, DropAll, empty);
  }

  // ----- the bound is attained -----

  /** Extends a run whose outcome is known by one step. */
  lemma Extend<V>(acts: seq<Action<V>>, w: World<V>, a: Action<V>, ttl: int, d: int)
    requires Run(0, acts, ttl) == w && Timely(0, acts, ttl, d) && TimelyStep(w, a, d)
    ensures Run(0, acts + [a], ttl) == Step(w, a, ttl) && Timely(0, acts + [a], ttl, d)
  {
    assert (acts + [a])[..|acts|] == acts;
  }

  /** By a step that only the cache sees, and that sets nothing there. */
  lemma ExtendCache<V>(acts: seq<Action<V>>, w: World<V>, c: C.Action<V>, ttl: int, d: int)
    requires Run(0, acts, ttl) == w && Timely(0, acts, ttl, d) && !c.Write? && !c.Remove? && !c.RemoveAll?
    ensures Timely(0, acts + [Cache(c)], ttl, d)
    ensures var m := Moment(w.Now().store, w.Now().clock + if c.Tick? then c.d else 0);
            Run(0, acts + [Cache(c)], ttl) == World(w.history + [m], w.pending, w.cacheActs + [c])
  {
    Extend(acts, w, Cache(c), ttl, d);
  }

  /**
    A write-through call (goroutine 0) is overtaken by another write and its invalidation (goroutine 1),
    caches its value `d` late, and is looked up (goroutine 2) when that entry is about to expire.
  */
  function StaleHit(k: string, v: int, v': int, d: nat, ttl: nat): seq<Action<int>> {
    Overtaken(k, v, v') + [Cache(C.Tick(d))] + [Finish(0)]
    + [Cache(C.Tick(ttl))] + [Cache(C.Read(2, k))] + [Cache(C.Check(2))]
  }

  /** The collection's history in that run: `v` is there at clock 0 only. */
  function StaleHistory(k: string, v: int, v': int, d: nat, ttl: nat): seq<Moment<int>> {
    var s, s', t := map[k := v], map[k := v'], d + ttl;
    [Moment(map[], 0)] + [Moment(s, 0)] + [Moment(s', 0)] + [Moment(s', 0)] + [Moment(s', d)] + [Moment(s', d)]
    + [Moment(s', t)] + [Moment(s', t)] + [Moment(s', t)]
  }

  function StaleCacheActs(k: string, v: int, d: nat, ttl: nat): seq<C.Action<int>> {
    LateSet(k, v, d, ttl) + [C.Tick(ttl)] + [C.Read(2, k)] + [C.Check(2)]
  }

  /** The moments and pending calls up to the invalidation. */
  function OvertakenWorld(k: string, v: int, v': int): World<int> {
    var s, s' := map[k := v], map[k := v'];
    World([Moment(map[], 0)] + [Moment(s, 0)] + [Moment(s', 0)] + [Moment(s', 0)], map[0 := Fill(k, v, 1, 0)],
          [] + [C.Tick(0)] + [C.Tick(0)] + [C.Remove(k)])
  }

  function Overtaken(k: string, v: int, v': int): seq<Action<int>> {
    [DbWrite(0, k, v, true), DbWrite(1, k, v', false), Finish(1)]
  }

  lemma StaleHitHead(k: string, v: int, v': int, d: nat, ttl: nat)
    ensures Timely(0, Overtaken(k, v, v'), ttl, d) && Run(0, Overtaken(k, v, v'), ttl) == OvertakenWorld(k, v, v')
  {
    var s, s' := map[k := v], map[k := v'];
    assert s[k := v'] == s';
    var fill := Fill(k, v, 1, 0);
    var b: seq<Action<int>> := [];
    var w0: World<int> := World([Moment(map[], 0)], map[], []);
    Extend<int>(b, w0, DbWrite(0, k, v, true), ttl, d);
    var w1: World<int> := World(w0.history + [Moment(s, 0)], map[0 := fill], w0.cacheActs + [C.Tick(0)]);
    assert Step(w0, DbWrite(0, k, v, true), ttl) == w1;
    b := b + [DbWrite(0, k, v, true)];
    Extend<int>(b, w1, DbWrite(1, k, v', false), ttl, d);
    var w2: World<int> := World(w1.history + [Moment(s', 0)], map[0 := fill, 1 := Drop(k)], w1.cacheActs + [C.Tick(0)]);
    assert Step(w1, DbWrite(1, k, v', false), ttl) == w2;
    b := b + [DbWrite(1, k, v', false)];
    Extend<int>(b, w2, Finish(1), ttl, d);
    assert w2.pending - {1} == map[0 := fill];
    assert Step(w2, Finish(1), ttl) == OvertakenWorld(k, v, v');
    assert b + [Finish(1)] == Overtaken(k, v, v');
  }

  lemma StaleHitWorld(k: string, v: int, v': int, d: nat, ttl: nat)
    ensures var acts := StaleHit(k, v, v', d, ttl);
            && Timely(0, acts, ttl, d)
            && Run(0, acts, ttl) == World(StaleHistory(k, v, v', d, ttl), map[], StaleCacheActs(k, v, d, ttl))
  {
    var s' := map[k := v'];
    var b := Overtaken(k, v, v');
    StaleHitHead(k, v, v', d, ttl);
    var w3 := OvertakenWorld(k, v, v');
    ExtendCache<int>(b, w3, C.Tick(d), ttl, d);
    var w4 := World(w3.history + [Moment(s', d)], w3.pending, w3.cacheActs + [C.Tick(d)]);
    b := b + [Cache(C.Tick(d))];
    Extend<int>(b, w4, Finish(0), ttl, d);
    assert w4.pending - {0} == map[];
    var w5 := World(w4.history + [Moment(s', d)], map[], w4.cacheActs + [C.Write(k, v, ttl)]);
    b := b + [Finish(0)];
    ExtendCache<int>(b, w5, C.Tick(ttl), ttl, d);
    var w6 := World(w5.history + [Moment(s', d + ttl)], w5.pending, w5.cacheActs + [C.Tick(ttl)]);
    LookUp(b + [Cache(C.Tick(ttl))], w6, k, Moment(s', d + ttl), ttl, d);
  }

  /** A lookup by goroutine 2, which takes no time. */
  lemma LookUp(b: seq<Action<int>>, w: World<int>, k: string, m: Moment<int>, ttl: nat, d: nat)
    requires Run(0, b, ttl) == w && Timely(0, b, ttl, d) && w.history != [] && w.Now() == m
    ensures var acts := b + [Cache(C.Read(2, k))] + [Cache(C.Check(2))];
            && Timely(0, acts, ttl, d)
            && Run(0, acts, ttl) == World(w.history + [m] + [m], w.pending, w.cacheActs + [C.Read(2, k)] + [C.Check(2)])
  {
    ExtendCache<int>(b, w, C.Read(2, k), ttl, d);
    var w1 := World(w.history + [m], w.pending, w.cacheActs + [C.Read(2, k)]);
    ExtendCache<int>(b + [Cache(C.Read(2, k))], w1, C.Check(2), ttl, d);
  }

  /** The cache up to the late Set, from the empty one: empty, and then only that entry. */
  lemma StaleSet(b: seq<C.Action<int>>, s: C.State<int>, k: string, v: int, d: nat, ttl: nat)
    requires C.Run(0, b) == s && s.data == map[]
    ensures C.Run(0, b + [C.Tick(0)] + [C.Tick(0)] + [C.Remove(k)] + [C.Tick(d)] + [C.Write(k, v, ttl)])
            == s.(data := map[k := Item(v, s.now + d + ttl)], now := s.now + d)
  {
    C.RunTo(0, b, s, C.Tick(0));
    C.RunTo(0, b + [C.Tick(0)], s, C.Tick(0));
    C.RunTo(0, b + [C.Tick(0)] + [C.Tick(0)], s, C.Remove(k));
    assert s.data - {k} == map[];
    var invalidated := b + [C.Tick(0)] + [C.Tick(0)] + [C.Remove(k)];
    C.RunTo(0, invalidated, s, C.Tick(d));
    C.RunTo(0, invalidated + [C.Tick(d)], s.(now := s.now + d), C.Write(k, v, ttl));
  }

  function LateSet(k: string, v: int, d: nat, ttl: nat): seq<C.Action<int>> {
    [] + [C.Tick(0)] + [C.Tick(0)] + [C.Remove(k)] + [C.Tick(d)] + [C.Write(k, v, ttl)]
  }

  lemma StaleHitLookup(k: string, v: int, d: nat, ttl: nat)
    ensures C.Run(0, StaleCacheActs(k, v, d, ttl)).PcOf(2) == C.GetDone(k, Hit(v), 6, d + ttl)
  {
    StaleSet([], C.State(map[], 0, map[]), k, v, d, ttl);
    var b := LateSet(k, v, d, ttl);
    var s5 := C.State(map[k := Item(v, d + ttl)], d, map[]);
    C.RunTo(0, b, s5, C.Tick(ttl));
    var s6 := s5.(now := d + ttl);
    C.RunTo(0, b + [C.Tick(ttl)], s6, C.Read(2, k));
    C.ReadFinds(s6, 2, k, 6);
    var s7 := s6.(pcs := s6.pcs[2 := C.GetRead(k, Item(v, d + ttl), 6)]);
    C.RunTo(0, b + [C.Tick(ttl)] + [C.Read(2, k)], s7, C.Check(2));
  }

  /**
    The bound cannot be improved, for any ttl and d: this timely run serves, at T = ttl + d, a value the
    collection never held after clock 0. It also shows that a slow call can put back a value after the
    invalidation that should have removed it.
  */
  lemma StalenessBoundIsTight(k: string, v: int, v': int, d: nat, ttl: nat)
    requires v != v'
    ensures var acts := StaleHit(k, v, v', d, ttl);
            && Timely(0, acts, ttl, d)
            && LookupOf(0, acts, ttl, 2) == C.GetDone(k, Hit(v), 6, ttl + d)
            && forall i: nat, t: int :: HeldAt(Run(0, acts, ttl).history, i, k, v, t) ==> t <= 0
  {
    StaleHitWorld(k, v, v', d, ttl);
    StaleHitLookup(k, v, d, ttl);
  }
}

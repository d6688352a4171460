/**
  src/core/cache/cache.go under concurrency. `Get` and `evictExpired` release the lock between looking
  and deleting, so each lock region is one atomic step here and a run is any interleaving of such
  steps with writes and with the passing of time.
*/
module ConcurrentCache {
  import opened TtlCache

  /** Where a goroutine is inside `Get` or `evictExpired`. Step numbers are history, for the statements below. */
  datatype Pc<+T> =
    | Idle
    | GetRead(key: string, item: Item<T>, readAt: nat)
    | GetExpired(key: string, readAt: nat, checkedAt: int)
    | GetDone(key: string, result: Lookup<T>, readAt: nat, checkedAt: int)
    | EvictStarted(now: int)
    | EvictScanned(now: int, expired: set<string>)

  datatype Action<+T> =
    | Tick(d: nat)
    | Write(key: string, value: T, ttl: int)   // SetWithTTL's region
    | Remove(key: string)                      // Delete's region
    | RemoveAll                                // Clear's region
    | Read(tid: nat, key: string)              // Get, first region
    | Check(tid: nat)                          // Get, the comparison with time.Now()
    | DropExpired(tid: nat)                    // Get, second region
    | EvictStart(tid: nat)                     // evictExpired reads time.Now()
    | EvictScan(tid: nat)                      // evictExpired, first region
    | EvictDelete(tid: nat)                    // evictExpired, second region

  datatype State<T> = State(data: map<string, Item<T>>, now: int, pcs: map<nat, Pc<T>>)
  {
    function PcOf(tid: nat): Pc<T> {
      if tid in pcs then pcs[tid] else Idle
    }
  }

  function KeepUnless<T>(data: map<string, Item<T>>, keys: set<string>, t: int): map<string, Item<T>> {
    map k | k in data && !(k in keys && t > data[k].Expiration) :: data[k]
  }

  /** One atomic step; `n` is its number. A step its goroutine is not ready for changes nothing. */
  function Step<T>(s: State<T>, a: Action<T>, n: nat): State<T> {
    match a
    case Tick(d) => s.(now := s.now + d)
    case Write(key, value, ttl) => s.(data := s.data[key := Item(value, s.now + ttl)])
    case Remove(key) => s.(data := s.data - {key})
    case RemoveAll => s.(data := map[])
    case Read(tid, key) =>
      var pc := s.PcOf(tid);
      if !(pc.Idle? || pc.GetDone?) then s
      else if key in s.data then s.(pcs := s.pcs[tid := GetRead(key, s.data[key], n)])
      else s.(pcs := s.pcs[tid := GetDone(key, Miss, n, s.now)])
    case Check(tid) =>
      var pc := s.PcOf(tid);
      if !pc.GetRead? then s
      else if s.now > pc.item.Expiration then s.(pcs := s.pcs[tid := GetExpired(pc.key, pc.readAt, s.now)])
      else s.(pcs := s.pcs[tid := GetDone(pc.key, Hit(pc.item.Value), pc.readAt, s.now)])
    case DropExpired(tid) =>
      var pc := s.PcOf(tid);
      if !pc.GetExpired? then s
      else s.(data := KeepUnless(s.data, {pc.key}, s.now),
              pcs := s.pcs[tid := GetDone(pc.key, Miss, pc.readAt, pc.checkedAt)])
    case EvictStart(tid) =>
      var pc := s.PcOf(tid);
      if !(pc.Idle? || pc.GetDone?) then s else s.(pcs := s.pcs[tid := EvictStarted(s.now)])
    case EvictScan(tid) =>
      var pc := s.PcOf(tid);
      if !pc.EvictStarted? then s
      else s.(pcs := s.pcs[tid := EvictScanned(pc.now, set k | k in s.data && pc.now > s.data[k].Expiration)])
    case EvictDelete(tid) =>
      var pc := s.PcOf(tid);
      if !pc.EvictScanned? then s
      else s.(data := KeepUnless(s.data, pc.expired, pc.now), pcs := s.pcs[tid := Idle])
  }

  function Run<T>(t0: int, acts: seq<Action<T>>): State<T> {
    if acts == [] then State(map[], t0, map[])
    else var n := |acts| - 1; Step(Run(t0, acts[..n]), acts[n], n)
  }

  // ----- the reference: time and writes read off the actions alone -----

  function ClockAfter<T>(t0: int, acts: seq<Action<T>>): int {
    if acts == [] then t0
    else var n := |acts| - 1;
      ClockAfter(t0, acts[..n]) + if acts[n].Tick? then acts[n].d else 0
  }

  /** The latest un-deleted write of every key: no expiry, no eviction, no goroutines. */
  function Written<T>(t0: int, acts: seq<Action<T>>): map<string, Item<T>> {
    if acts == [] then map[]
    else var n := |acts| - 1; WrittenStep(Written(t0, acts[..n]), acts[n], ClockAfter(t0, acts[..n]))
  }

  function WrittenStep<T>(w: map<string, Item<T>>, a: Action<T>, now: int): map<string, Item<T>> {
    match a
    case Write(key, value, ttl) => w[key := Item(value, now + ttl)]
    case Remove(key) => w - {key}
    case RemoveAll => map[]
    case _ => w
  }

  /** What a Get that looks at the writes `w` and at the clock `t` should answer. */
  function Expected<T>(w: map<string, Item<T>>, key: string, t: int): Lookup<T> {
    if key in w && t <= w[key].Expiration then Hit(w[key].Value) else Miss
  }

  // ----- the invariant -----

  ghost predicate PcInv<T>(t0: int, acts: seq<Action<T>>, tid: nat, pc: Pc<T>, now: int) {
    match pc
    case Idle => true
    case GetRead(key, item, r) =>
      && r < |acts| && acts[r] == Read(tid, key) && ClockAfter(t0, acts[..r]) <= now
      && key in Written(t0, acts[..r]) && Written(t0, acts[..r])[key] == item
    case GetExpired(key, r, c) =>
      && r < |acts| && acts[r] == Read(tid, key) && ClockAfter(t0, acts[..r]) <= c <= now
      && Expected(Written(t0, acts[..r]), key, c) == Miss
    case GetDone(key, result, r, c) =>
      && r < |acts| && acts[r] == Read(tid, key) && ClockAfter(t0, acts[..r]) <= c <= now
      && Expected(Written(t0, acts[..r]), key, c) == result
    case EvictStarted(e) => e <= now
    case EvictScanned(e, _) => e <= now
  }

  ghost predicate Inv<T>(t0: int, acts: seq<Action<T>>) {
    var s, w := Run(t0, acts), Written(t0, acts);
    && s.now == ClockAfter(t0, acts)
    && (forall k | k in s.data :: k in w && s.data[k] == w[k])
    && (forall k | k in w && k !in s.data :: w[k].Expiration < s.now)
    && (forall tid | tid in s.pcs :: PcInv(t0, acts, tid, s.pcs[tid], s.now))
  }

  lemma PcInvFrame<T>(t0: int, acts: seq<Action<T>>, a: Action<T>, tid: nat, pc: Pc<T>, now: int, later: int)
    requires PcInv(t0, acts, tid, pc, now) && now <= later
    ensures PcInv(t0, acts + [a], tid, pc, later)
  {
    if pc.GetRead? || pc.GetExpired? || pc.GetDone? {
      assert (acts + [a])[..pc.readAt] == acts[..pc.readAt];
    }
  }

  /** One step keeps the stored data in line with the latest writes. */
  lemma StepKeepsData<T>(t0: int, acts: seq<Action<T>>, a: Action<T>)
    requires Inv(t0, acts)
    ensures var s, w := Step(Run(t0, acts), a, |acts|), Written(t0, acts + [a]);
            && s.now == ClockAfter(t0, acts + [a])
            && (forall k | k in s.data :: k in w && s.data[k] == w[k])
            && (forall k | k in w && k !in s.data :: w[k].Expiration < s.now)
  {
    assert (acts + [a])[..|acts|] == acts;
    var s := Run(t0, acts);
    match a
    case EvictDelete(tid) =>
      if tid in s.pcs { assert PcInv(t0, acts, tid, s.pcs[tid], s.now); }
    case _ =>
  }

  /** One step keeps what every goroutine remembers in line with the run. */
  lemma StepKeepsPcs<T>(t0: int, acts: seq<Action<T>>, a: Action<T>, tid: nat)
    requires Inv(t0, acts)
    requires var s := Step(Run(t0, acts), a, |acts|); tid in s.pcs
    ensures var s := Step(Run(t0, acts), a, |acts|); PcInv(t0, acts + [a], tid, s.pcs[tid], s.now)
  {
    var s, r := Run(t0, acts), Step(Run(t0, acts), a, |acts|);
    assert (acts + [a])[..|acts|] == acts;
    if tid in s.pcs {
      PcInvFrame(t0, acts, a, tid, s.pcs[tid], s.now, r.now);
    }
    if a.Check? && a.tid == tid && s.PcOf(tid).GetRead? {
      assert (acts + [a])[..s.pcs[tid].readAt] == acts[..s.pcs[tid].readAt];
    }
  }

  lemma {:induction false} InvHolds<T>(t0: int, acts: seq<Action<T>>)
    ensures Inv(t0, acts)
  {
    if acts != [] {
      var n := |acts| - 1;
      var before, a := acts[..n], acts[n];
      InvHolds(t0, before);
      assert acts == before + [a];
      StepKeepsData(t0, before, a);
      forall tid | tid in Run(t0, acts).pcs
        ensures PcInv(t0, acts, tid, Run(t0, acts).pcs[tid], Run(t0, acts).now)
      {
        StepKeepsPcs(t0, before, a, tid);
      }
    }
  }

  // ----- what the cache promises under every interleaving -----

  /**
    Every finished Get answers exactly as the writes stood at its read step and the clock at its check:
    a hit iff there was an un-deleted write whose time had not passed, and then that write's value.
  */
  lemma GetIsExact<T>(t0: int, acts: seq<Action<T>>, tid: nat)
    requires Run(t0, acts).PcOf(tid).GetDone?
    ensures var pc := Run(t0, acts).PcOf(tid);
            && pc.readAt < |acts| && acts[pc.readAt] == Read(tid, pc.key)
            && ClockAfter(t0, acts[..pc.readAt]) <= pc.checkedAt <= ClockAfter(t0, acts)
            && pc.result == Expected(Written(t0, acts[..pc.readAt]), pc.key, pc.checkedAt)
  {
    InvHolds(t0, acts);
  }

  /** No step of any goroutine other than Remove and RemoveAll takes away an entry that is still live. */
  lemma NoLiveEntryIsEvicted<T>(t0: int, acts: seq<Action<T>>, a: Action<T>, key: string)
    requires var s := Run(t0, acts); key in s.data && s.now <= s.data[key].Expiration
    requires a != Remove(key) && a != RemoveAll && !(a.Write? && a.key == key)
    ensures var r := Run(t0, acts + [a]); key in r.data && r.data[key] == Run(t0, acts).data[key]
  {
    InvHolds(t0, acts);
    assert (acts + [a])[..|acts|] == acts;
  }

  /** At every moment, exactly the latest un-deleted writes are stored, give or take expired ones. */
  lemma LiveWritesAreStored<T>(t0: int, acts: seq<Action<T>>, key: string)
    ensures var s, w := Run(t0, acts), Written(t0, acts);
            key in w && ClockAfter(t0, acts) <= w[key].Expiration ==> key in s.data && s.data[key] == w[key]
    ensures var s, w := Run(t0, acts), Written(t0, acts);
            key in s.data ==> key in w && s.data[key] == w[key]
  {
    InvHolds(t0, acts);
  }

  lemma RunSnoc<T>(t0: int, acts: seq<Action<T>>, a: Action<T>)
    ensures Run(t0, acts + [a]) == Step(Run(t0, acts), a, |acts|)
  {
    assert (acts + [a])[..|acts|] == acts;
  }

  /** Extends a run whose outcome is known by one step. */
  lemma RunTo<T>(t0: int, acts: seq<Action<T>>, s: State<T>, a: Action<T>)
    requires Run(t0, acts) == s
    ensures Run(t0, acts + [a]) == Step(s, a, |acts|)
  {
    RunSnoc(t0, acts, a);
  }

  /** A Get that finds the key, as its first region. */
  lemma ReadFinds<T>(s: State<T>, tid: nat, key: string, n: nat)
    requires (s.PcOf(tid).Idle? || s.PcOf(tid).GetDone?) && key in s.data
    ensures Step(s, Read(tid, key), n) == s.(pcs := s.pcs[tid := GetRead(key, s.data[key], n)])
  {
  }

  /** An entry is read, grows old, and is refreshed between the check and the second region. */
  function RefreshRun(k: string, v: int): seq<Action<int>> {
    ExpiredRun(k, v) + [Write(k, v, 9)] + [DropExpired(1)]
  }

  function ExpiredRun(k: string, v: int): seq<Action<int>> {
    [] + [Write(k, v, 1)] + [Read(1, k)] + [Tick(2)] + [Check(1)]
  }

  lemma ExpiredRunState(k: string, v: int)
    ensures Run(0, ExpiredRun(k, v)) == State(map[k := Item(v, 1)], 2, map[1 := GetExpired(k, 1, 2)])
  {
    var a0: seq<Action<int>> := [];
    var s0: State<int> := State(map[], 0, map[]);
    RunTo(0, a0, s0, Write(k, v, 1));
    var a1 := a0 + [Write(k, v, 1)];
    var s1 := s0.(data := map[k := Item(v, 1)]);
    RunTo(0, a1, s1, Read(1, k));
    ReadFinds(s1, 1, k, 1);
    var a2 := a1 + [Read(1, k)];
    var s2 := s1.(pcs := s1.pcs[1 := GetRead(k, Item(v, 1), 1)]);
    RunTo(0, a2, s2, Tick(2));
    var s3 := s2.(now := 2);
    RunTo(0, a2 + [Tick(2)], s3, Check(1));
    assert s3.pcs[1 := GetExpired(k, 1, 2)] == map[1 := GetExpired(k, 1, 2)];
  }

  lemma RefreshRunState(k: string, v: int)
    ensures Run(0, RefreshRun(k, v)) == State(map[k := Item(v, 11)], 2, map[1 := GetDone(k, Miss, 1, 2)])
  {
    ExpiredRunState(k, v);
    var s4 := State(map[k := Item(v, 1)], 2, map[1 := GetExpired(k, 1, 2)]);
    RunTo(0, ExpiredRun(k, v), s4, Write(k, v, 9));
    var s5 := s4.(data := s4.data[k := Item(v, 11)]);
    RunTo(0, ExpiredRun(k, v) + [Write(k, v, 9)], s5, DropExpired(1));
    assert KeepUnless(s5.data, {k}, 2) == map[k := Item(v, 11)];
  }

  /** "A Get never misses a live key" is false: a refresh before it returns is not seen. */
  lemma RefreshCanBeMissed(k: string, v: int)
    ensures exists acts: seq<Action<int>> :: MissesLiveKey(acts, k)
  {
    RefreshRunState(k, v);
    var acts := RefreshRun(k, v);
    assert acts == [Write(k, v, 1), Read(1, k), Tick(2), Check(1), Write(k, v, 9), DropExpired(1)];
    assert MissesLiveKey(acts, k);
  }

  /** Goroutine 1 has missed the key `k`, which nobody has removed and which is live. */
  ghost predicate MissesLiveKey(acts: seq<Action<int>>, k: string) {
    var s := Run(0, acts);
    && s.PcOf(1).GetDone? && s.PcOf(1).key == k && s.PcOf(1).result == Miss
    && k in s.data && s.now <= s.data[k].Expiration
    && forall i | 0 <= i < |acts| :: acts[i] != Remove(k) && !acts[i].RemoveAll?
  }

  /** A caller's step on what is stored under `key`. */
  predicate Touches<T>(a: Action<T>, key: string) {
    (a.Write? && a.key == key) || (a.Remove? && a.key == key) || a.RemoveAll?
  }

  ghost predicate Untouched<T>(acts: seq<Action<T>>, from: nat, key: string) {
    forall i | from <= i < |acts| :: !Touches(acts[i], key)
  }

  /** Step `i` writes `key`, nobody touches the key afterwards, and its time has not passed. */
  ghost predicate LiveWriteAt<T>(t0: int, acts: seq<Action<T>>, i: nat, key: string) {
    && i < |acts| && acts[i].Write? && acts[i].key == key && Untouched(acts, i + 1, key)
    && ClockAfter(t0, acts) <= ClockAfter(t0, acts[..i]) + acts[i].ttl
  }

  lemma {:induction false} UntouchedStays<T>(t0: int, acts: seq<Action<T>>, r: nat, key: string)
    requires r <= |acts| && Untouched(acts, r, key)
    ensures var before, now := Written(t0, acts[..r]), Written(t0, acts);
            (key in now <==> key in before) && (key in now ==> now[key] == before[key])
    ensures ClockAfter(t0, acts[..r]) <= ClockAfter(t0, acts)
    decreases |acts|
  {
    var n := |acts| - 1;
    if r <= n {
      assert acts[..n][..r] == acts[..r];
      UntouchedStays(t0, acts[..n], r, key);
    } else {
      assert acts[..r] == acts;
    }
  }

  /** What is written under a key was written at some step that nobody has undone. */
  lemma {:induction false} WrittenAt<T>(t0: int, acts: seq<Action<T>>, key: string) returns (i: nat)
    requires key in Written(t0, acts)
    ensures i < |acts| && acts[i].Write? && acts[i].key == key && Untouched(acts, i + 1, key)
    ensures Written(t0, acts)[key] == Item(acts[i].value, ClockAfter(t0, acts[..i]) + acts[i].ttl)
  {
    var n := |acts| - 1;
    if acts[n].Write? && acts[n].key == key {
      return n;
    }
    i := WrittenAt(t0, acts[..n], key);
    assert acts[..n][..i] == acts[..i];
  }

  lemma LiveWriteIsHit<T>(t0: int, acts: seq<Action<T>>, i: nat, key: string)
    requires LiveWriteAt(t0, acts, i, key)
    ensures Expected(Written(t0, acts), key, ClockAfter(t0, acts)) == Hit(acts[i].value)
  {
    UntouchedStays(t0, acts, i + 1, key);
    assert acts[..i + 1][..i] == acts[..i];
  }

  /**
    Exactly when: a finished Get has missed a key that is live now iff it was refreshed since its read, by a
    write nobody has undone and whose time has not passed.
  */
  lemma LiveMissIffRefreshed<T>(t0: int, acts: seq<Action<T>>, tid: nat)
    requires Run(t0, acts).PcOf(tid).GetDone? && Run(t0, acts).PcOf(tid).result == Miss
    ensures var pc := Run(t0, acts).PcOf(tid);
            Expected(Written(t0, acts), pc.key, ClockAfter(t0, acts)).Hit?
            <==> exists i: nat :: pc.readAt <= i && LiveWriteAt(t0, acts, i, pc.key)
  {
    GetIsExact(t0, acts, tid);
    var pc := Run(t0, acts).PcOf(tid);
    if i: nat :| pc.readAt <= i && LiveWriteAt(t0, acts, i, pc.key) {
      LiveWriteIsHit(t0, acts, i, pc.key);
    }
    if Expected(Written(t0, acts), pc.key, ClockAfter(t0, acts)).Hit? {
      var i := WrittenAt(t0, acts, pc.key);
      assert LiveWriteAt(t0, acts, i, pc.key);
      if i < pc.readAt {
        UntouchedStays(t0, acts, pc.readAt, pc.key);
      }
    }
  }

  // ----- expired entries go -----

  /** A Get that found its key expired takes it away, unless it is live again. */
  lemma GetDropsExpired<T>(t0: int, acts: seq<Action<T>>, tid: nat)
    requires Run(t0, acts).PcOf(tid).GetExpired?
    ensures var pc, r := Run(t0, acts).PcOf(tid), Run(t0, acts + [DropExpired(tid)]);
            && r.PcOf(tid) == GetDone(pc.key, Miss, pc.readAt, pc.checkedAt)
            && (pc.key in r.data ==> r.now <= r.data[pc.key].Expiration)
  {
    RunSnoc(t0, acts, DropExpired(tid));
  }

  /** A step that goroutine `tid` makes. */
  predicate IsStepOf<T>(a: Action<T>, tid: nat) {
    (a.Read? || a.Check? || a.DropExpired? || a.EvictStart? || a.EvictScan? || a.EvictDelete?) && a.tid == tid
  }

  /** An entry is as it was, or gone. */
  ghost predicate StaysOrGoes<T>(data: map<string, Item<T>>, key: string, item: Item<T>) {
    key in data ==> data[key] == item
  }

  lemma ScanWaitsOneStep<T>(s: State<T>, a: Action<T>, n: nat, tid: nat, key: string, item: Item<T>)
    requires !IsStepOf(a, tid) && !Touches(a, key) && StaysOrGoes(s.data, key, item)
    ensures var r := Step(s, a, n); r.PcOf(tid) == s.PcOf(tid) && StaysOrGoes(r.data, key, item)
  {
  }

  /** Whatever others do between the two regions of an eviction, short of touching the key, it stays or goes. */
  lemma {:induction false} ScanWaits<T>(t0: int, acts: seq<Action<T>>, between: seq<Action<T>>, tid: nat, key: string, item: Item<T>)
    requires forall i | 0 <= i < |between| :: !IsStepOf(between[i], tid) && !Touches(between[i], key)
    requires StaysOrGoes(Run(t0, acts).data, key, item)
    ensures var r := Run(t0, acts + between);
            r.PcOf(tid) == Run(t0, acts).PcOf(tid) && StaysOrGoes(r.data, key, item)
  {
    if between == [] {
      assert acts + between == acts;
    } else {
      var n := |between| - 1;
      ScanWaits(t0, acts, between[..n], tid, key, item);
      assert acts + between == acts + between[..n] + [between[n]];
      RunSnoc(t0, acts + between[..n], between[n]);
      ScanWaitsOneStep(Run(t0, acts + between[..n]), between[n], |acts + between[..n]|, tid, key, item);
    }
  }

  /**
    evictExpired does its work in every interleaving: an entry expired when it took the time, and not touched by
    any caller until it is through, is gone.
  */
  lemma EvictionRemovesExpired<T>(t0: int, acts: seq<Action<T>>, tid: nat, between: seq<Action<T>>, key: string)
    requires Run(t0, acts).PcOf(tid).EvictStarted?
    requires var s := Run(t0, acts); key in s.data && s.data[key].Expiration < s.PcOf(tid).now
    requires forall i | 0 <= i < |between| :: !IsStepOf(between[i], tid) && !Touches(between[i], key)
    ensures var r := Run(t0, acts + [EvictScan(tid)] + between + [EvictDelete(tid)]);
            key !in r.data && r.PcOf(tid) == Idle
  {
    var s := Run(t0, acts);
    var e, item := s.PcOf(tid).now, s.data[key];
    RunSnoc(t0, acts, EvictScan(tid));
    var scanned := Run(t0, acts + [EvictScan(tid)]);
    assert scanned.PcOf(tid).EvictScanned? && scanned.PcOf(tid).now == e && key in scanned.PcOf(tid).expired;
    ScanWaits(t0, acts + [EvictScan(tid)], between, tid, key, item);
    RunSnoc(t0, acts + [EvictScan(tid)] + between, EvictDelete(tid));
  }

  /** And evictExpired starts with the time of its start. */
  lemma EvictionTakesTheTime<T>(t0: int, acts: seq<Action<T>>, tid: nat)
    requires Run(t0, acts).PcOf(tid).Idle? || Run(t0, acts).PcOf(tid).GetDone?
    ensures Run(t0, acts + [EvictStart(tid)]).PcOf(tid) == EvictStarted(ClockAfter(t0, acts))
  {
    RunSnoc(t0, acts, EvictStart(tid));
    InvHolds(t0, acts);
  }
}

/**
  The shared janitor of src/core/cache/cache.go: one list of caches, one stop channel at a time, and
  worker goroutines that read `j.stop` afresh each time they enter their select. `register` and
  `unregister` run under the mutex and are one step each; a worker's steps interleave with them.
*/
module Janitor {

  /** Where a worker of `run` is. */
  datatype Worker =
    | Entering                     // about to evaluate j.stop for the select
    | Blocked(ch: nat)             // in the select, holding the channel it read
    | Ticked                       // took the ticker case, about to lock
    | Sweeping(caches: seq<nat>)   // has yet to call evictExpired on these, its copy of the list
    | Exited

  datatype State = State(
    caches: seq<nat>,
    running: bool,
    stop: nat,             // the channel in j.stop; 0 is nil
    channels: nat,         // channels 1..channels have been made
    closed: set<nat>,
    doubleClose: bool,     // a closed channel was closed again: Go panics
    workers: seq<Worker>,
    evicted: seq<nat>      // the evictExpired calls so far
  )

  const INITIAL := State([], false, 0, 0, {}, false, [], [])

  datatype Action =
    | Register(c: nat)
    | Unregister(c: nat)
    | Enter(w: nat)
    | Tick(w: nat)
    | Stop(w: nat)
    | Lock(w: nat)
    | Evict(w: nat)

  /** Drops the first occurrence. */
  function RemoveFirst(cs: seq<nat>, c: nat): (r: seq<nat>) {
    if cs == [] then [] else if cs[0] == c then cs[1..] else [cs[0]] + RemoveFirst(cs[1..], c)
  }

  function RegisterStep(s: State, c: nat): State {
    var s1 := s.(caches := s.caches + [c]);
    if s.running then s1
    else s1.(stop := s.channels + 1, channels := s.channels + 1, running := true,
             workers := s.workers + [Entering])
  }

  function UnregisterStep(s: State, c: nat): State {
    var s1 := s.(caches := RemoveFirst(s.caches, c));
    if s1.caches == [] && s.running then
      s1.(closed := s.closed + {s.stop}, doubleClose := s.doubleClose || s.stop in s.closed, running := false)
    else s1
  }

  function Step(s: State, a: Action): State {
    match a
    case Register(c) => RegisterStep(s, c)
    case Unregister(c) => UnregisterStep(s, c)
    case Enter(w) =>
      if w < |s.workers| && s.workers[w] == Entering then s.(workers := s.workers[w := Blocked(s.stop)]) else s
    case Tick(w) =>
      if w < |s.workers| && s.workers[w].Blocked? then s.(workers := s.workers[w := Ticked]) else s
    case Stop(w) =>
      if w < |s.workers| && s.workers[w].Blocked? && s.workers[w].ch in s.closed
      then s.(workers := s.workers[w := Exited]) else s
    case Lock(w) =>
      if w < |s.workers| && s.workers[w] == Ticked
      then s.(workers := s.workers[w := if s.caches == [] then Entering else Sweeping(s.caches)]) else s
    case Evict(w) =>
      if w < |s.workers| && s.workers[w].Sweeping? then
        var cs := s.workers[w].caches;
        if cs == [] then s.(workers := s.workers[w := Entering])
        else s.(evicted := s.evicted + [cs[0]], workers := s.workers[w := Sweeping(cs[1..])])
      else s
  }

  function Run(acts: seq<Action>): State {
    if acts == [] then INITIAL else Step(Run(acts[..|acts| - 1]), acts[|acts| - 1])
  }

  /** A worker that is still there and does not sit on a channel that is closed already. */
  predicate Serving(s: State, w: nat) {
    && w < |s.workers| && !s.workers[w].Exited?
    && (s.workers[w].Blocked? ==> s.workers[w].ch !in s.closed)
  }

  ghost predicate Inv(s: State) {
    && (s.running <==> s.caches != [])
    && !s.doubleClose
    && (forall c | c in s.closed :: 1 <= c <= s.channels)
    && (if s.running then 1 <= s.stop == s.channels && s.stop !in s.closed
        else s.stop == s.channels && (s.stop != 0 ==> s.stop in s.closed))
    && (s.stop == 0 ==> s.workers == [])
    && (forall w | 0 <= w < |s.workers| && s.workers[w].Blocked? ::
          s.workers[w].ch == s.stop || s.workers[w].ch in s.closed)
    && (s.running ==> exists w: nat :: Serving(s, w))
  }

  lemma StepKeepsInv(s: State, a: Action)
    requires Inv(s)
    ensures Inv(Step(s, a))
  {
    var r := Step(s, a);
    if s.running && r.running {
      var w: nat :| Serving(s, w);
      assert Serving(r, w);
    } else if r.running {
      assert Serving(r, |s.workers|);
    }
  }

  lemma {:induction false} InvHolds(acts: seq<Action>)
    ensures Inv(Run(acts))
  {
    if acts != [] {
      InvHolds(acts[..|acts| - 1]);
      StepKeepsInv(Run(acts[..|acts| - 1]), acts[|acts| - 1]);
    }
  }

  /**
    The janitor's life cycle, in every interleaving: it runs iff some cache is registered; no stop
    channel is closed twice; a worker waiting in its select waits on the current channel or on a closed
    one, so none is orphaned; and while it runs, some worker is live and not about to be told to exit.
  */
  lemma JanitorLifecycle(acts: seq<Action>)
    ensures var s := Run(acts);
            && (s.running <==> s.caches != [])
            && !s.doubleClose
            && (forall w | 0 <= w < |s.workers| && s.workers[w].Blocked? ::
                  s.workers[w].ch == s.stop || s.workers[w].ch in s.closed)
            && (s.running ==> exists w: nat :: Serving(s, w))
  {
    InvHolds(acts);
  }

  // ----- the list is what was registered and not unregistered -----

  /** The registered list, as a multiset, read off the actions. */
  function Registered(acts: seq<Action>): multiset<nat> {
    if acts == [] then multiset{} else
    var m := Registered(acts[..|acts| - 1]);
    match acts[|acts| - 1]
    case Register(c) => m + multiset{c}
    case Unregister(c) => m - multiset{c}
    case _ => m
  }

  lemma {:induction false} RemoveFirstRemovesOne(cs: seq<nat>, c: nat)
    ensures multiset(RemoveFirst(cs, c)) == multiset(cs) - multiset{c}
  {
    if cs != [] {
      assert cs == [cs[0]] + cs[1..];
      RemoveFirstRemovesOne(cs[1..], c);
    }
  }

  lemma {:induction false} CachesAreRegistered(acts: seq<Action>)
    ensures multiset(Run(acts).caches) == Registered(acts)
  {
    if acts != [] {
      CachesAreRegistered(acts[..|acts| - 1]);
      match acts[|acts| - 1]
      case Unregister(c) => RemoveFirstRemovesOne(Run(acts[..|acts| - 1]).caches, c);
      case _ =>
    }
  }

  /** The janitor runs iff some registration has not been undone. */
  lemma RunningIffRegistered(acts: seq<Action>)
    ensures Run(acts).running <==> Registered(acts) != multiset{}
  {
    InvHolds(acts);
    CachesAreRegistered(acts);
    var cs := Run(acts).caches;
    if cs != [] {
      assert cs[0] in multiset(cs);
    }
  }

  /** "At most one worker" is false: a restart adds one while the old one, back from a sweep, reads the new channel. */
  lemma TwoWorkersCanServe()
    ensures exists acts: seq<Action> ::
              var s := Run(acts); s.running && Serving(s, 0) && Serving(s, 1)
  {
    var a1: seq<Action> := [Register(7)];
    var a2 := a1 + [Unregister(7)];
    var a3 := a2 + [Register(8)];
    assert a1[..0] == [] && a2[..1] == a1 && a3[..2] == a2;
    assert Run(a1) == State([7], true, 1, 1, {}, false, [Entering], []);
    assert RemoveFirst([7], 7) == [];
    assert Run(a2) == State([], false, 1, 1, {1}, false, [Entering], []);
    assert Run(a3) == State([8], true, 2, 2, {1}, false, [Entering, Entering], []);
  }

  // ----- what the workers do -----

  /**
    A pass: a worker that ticked takes the list exactly as it is registered then, to sweep it, and goes back to
    its select when there is none.
  */
  lemma LockTakesTheRegistered(acts: seq<Action>, w: nat)
    requires w < |Run(acts).workers| && Run(acts).workers[w] == Ticked
    ensures var r := Run(acts + [Lock(w)]);
            if Registered(acts) == multiset{} then r.workers[w] == Entering
            else r.workers[w].Sweeping? && multiset(r.workers[w].caches) == Registered(acts)
  {
    RunSnoc(acts, Lock(w));
    CachesAreRegistered(acts);
    var cs := Run(acts).caches;
    if cs != [] {
      assert cs[0] in multiset(cs);
    }
  }

  lemma RunSnoc(acts: seq<Action>, a: Action)
    ensures Run(acts + [a]) == Step(Run(acts), a)
  {
    assert (acts + [a])[..|acts|] == acts;
  }

  /** The run `acts` goes on to `r` with worker `w` at `pc`, the registrations being as they were. */
  ghost predicate Leads(acts: seq<Action>, more: seq<Action>, w: nat, pc: Worker) {
    var s, r := Run(acts), Run(acts + more);
    && w < |r.workers| && r.workers[w] == pc && Registered(acts + more) == Registered(acts)
    && r.running == s.running && r.stop == s.stop && r.closed == s.closed && s.evicted <= r.evicted
  }

  predicate IsStepOf(a: Action, w: nat) {
    a == Enter(w) || a == Tick(w) || a == Stop(w) || a == Lock(w) || a == Evict(w)
  }

  lemma WorkerStepKeeps(s: State, a: Action, w: nat)
    requires IsStepOf(a, w) && w < |s.workers|
    ensures var r := Step(s, a);
            && |r.workers| == |s.workers|
            && r.running == s.running && r.stop == s.stop && r.closed == s.closed && s.evicted <= r.evicted
  {
  }

  /** One step of worker `w`. */
  lemma LeadsOn(acts: seq<Action>, more: seq<Action>, a: Action, w: nat, pc: Worker, pc': Worker)
    requires Leads(acts, more, w, pc) && IsStepOf(a, w)
    requires Step(Run(acts + more), a).workers[w] == pc'
    ensures Leads(acts, more + [a], w, pc')
  {
    assert acts + (more + [a]) == acts + more + [a];
    RunSnoc(acts + more, a);
    RegisteredSnoc(acts + more, a);
    WorkerStepKeeps(Run(acts + more), a, w);
  }

  lemma RegisteredSnoc(acts: seq<Action>, a: Action)
    requires !a.Register? && !a.Unregister?
    ensures Registered(acts + [a]) == Registered(acts)
  {
    assert (acts + [a])[..|acts|] == acts;
  }

  lemma EvictsNext(acts: seq<Action>, more: seq<Action>, w: nat, cs: seq<nat>)
    requires Leads(acts, more, w, Sweeping(cs))
    ensures Leads(acts, more + [Evict(w)], w, if cs == [] then Entering else Sweeping(cs[1..]))
    ensures Run(acts + (more + [Evict(w)])).evicted == Run(acts + more).evicted + if cs == [] then [] else [cs[0]]
  {
    LeadsOn(acts, more, Evict(w), w, Sweeping(cs), if cs == [] then Entering else Sweeping(cs[1..]));
    assert acts + (more + [Evict(w)]) == acts + more + [Evict(w)];
    RunSnoc(acts + more, Evict(w));
  }

  lemma OneAndTheRest(log: seq<nat>, cs: seq<nat>)
    ensures if cs == [] then log + [] == log + cs else log + [cs[0]] + cs[1..] == log + cs
  {
  }

  /** A worker on its round can finish it: every cache on its list is evicted from, in order. */
  lemma {:induction false} FinishesSweep(acts: seq<Action>, more: seq<Action>, w: nat, cs: seq<nat>)
    returns (rest: seq<Action>)
    requires Leads(acts, more, w, Sweeping(cs))
    ensures Leads(acts, rest, w, Entering) && Run(acts + rest).evicted == Run(acts + more).evicted + cs
    decreases |cs|
  {
    EvictsNext(acts, more, w, cs);
    OneAndTheRest(Run(acts + more).evicted, cs);
    rest := more + [Evict(w)];
    if cs != [] {
      rest := FinishesSweep(acts, rest, w, cs[1..]);
    }
  }

  /** A live worker can always come back to the point before its select. */
  lemma ComesBack(acts: seq<Action>, w: nat) returns (more: seq<Action>)
    requires w < |Run(acts).workers| && !Run(acts).workers[w].Exited? && !Run(acts).workers[w].Blocked?
    ensures Leads(acts, more, w, Entering)
  {
    assert acts + [] == acts;
    match Run(acts).workers[w]
    case Entering => more := [];
    case Sweeping(cs) => more := FinishesSweep(acts, [], w, cs);
    case Ticked =>
      LeadsOn(acts, [], Lock(w), w, Ticked, Step(Run(acts), Lock(w)).workers[w]);
      more := [] + [Lock(w)];
      match Step(Run(acts), Lock(w)).workers[w]
      case Sweeping(cs) => more := FinishesSweep(acts, more, w, cs);
      case _ =>
  }

  /** And from there, or from its select, to its tick. */
  lemma GetsItsTick(acts: seq<Action>, w: nat) returns (more: seq<Action>)
    requires w < |Run(acts).workers| && !Run(acts).workers[w].Exited?
    ensures Leads(acts, more, w, Ticked)
  {
    assert acts + [] == acts;
    if Run(acts).workers[w].Blocked? {
      LeadsOn(acts, [], Tick(w), w, Run(acts).workers[w], Ticked);
      more := [] + [Tick(w)];
    } else {
      more := ComesBack(acts, w);
      var pc := Blocked(Run(acts + more).stop);
      LeadsOn(acts, more, Enter(w), w, Entering, pc);
      LeadsOn(acts, more + [Enter(w)], Tick(w), w, pc, Ticked);
      more := more + [Enter(w)] + [Tick(w)];
    }
  }

  /**
    The janitor works: from every run with something registered, some continuation, with the registrations as
    they are, calls evictExpired on every registered cache, as often as it is registered.
  */
  lemma EveryCacheCanBeSwept(acts: seq<Action>) returns (more: seq<Action>, cs: seq<nat>)
    requires Registered(acts) != multiset{}
    ensures Registered(acts + more) == Registered(acts) == multiset(cs)
    ensures Run(acts).evicted <= Run(acts + more).evicted && Ends(Run(acts + more).evicted, cs)
  {
    InvHolds(acts);
    RunningIffRegistered(acts);
    var w: nat :| Serving(Run(acts), w);
    more := GetsItsTick(acts, w);
    LockTakesTheRegistered(acts + more, w);
    RunSnoc(acts + more, Lock(w));
    cs := Run(acts + more + [Lock(w)]).workers[w].caches;
    LeadsOn(acts, more, Lock(w), w, Ticked, Sweeping(cs));
    more := FinishesSweep(acts, more + [Lock(w)], w, cs);
  }

  ghost predicate Ends(s: seq<nat>, tail: seq<nat>) {
    |tail| <= |s| && s[|s| - |tail|..] == tail
  }

  /** No worker is left behind: when nothing is registered, each of them can take notice and exit. */
  lemma IdleWorkersCanExit(acts: seq<Action>, w: nat) returns (more: seq<Action>)
    requires Registered(acts) == multiset{} && w < |Run(acts).workers|
    ensures Leads(acts, more, w, Exited)
  {
    InvHolds(acts);
    RunningIffRegistered(acts);
    assert acts + [] == acts;
    var pc := Run(acts).workers[w];
    if pc.Exited? {
      more := [];
    } else if pc.Blocked? {
      LeadsOn(acts, [], Stop(w), w, pc, Exited);
      more := [] + [Stop(w)];
    } else {
      more := ComesBack(acts, w);
      var blocked := Blocked(Run(acts + more).stop);
      LeadsOn(acts, more, Enter(w), w, Entering, blocked);
      InvHolds(acts + (more + [Enter(w)]));
      LeadsOn(acts, more + [Enter(w)], Stop(w), w, blocked, Exited);
      more := more + [Enter(w)] + [Stop(w)];
    }
  }

  // ----- when there is one worker at most -----

  ghost predicate OneAtMost(ws: seq<Worker>) {
    forall i, j | 0 <= i < j < |ws| :: ws[i].Exited? || ws[j].Exited?
  }

  /** Never, in the whole run, are two workers there. */
  ghost predicate Single(acts: seq<Action>) {
    OneAtMost(Run(acts).workers) && (acts != [] ==> Single(acts[..|acts| - 1]))
  }

  /** A registration that starts a worker finds all earlier ones gone. */
  ghost predicate CleanStep(s: State, a: Action) {
    a.Register? && !s.running ==> forall w | w in s.workers :: w.Exited?
  }

  ghost predicate Clean(acts: seq<Action>) {
    acts != [] ==> CleanStep(Run(acts[..|acts| - 1]), acts[|acts| - 1]) && Clean(acts[..|acts| - 1])
  }

  lemma StepKeepsOne(s: State, a: Action)
    requires OneAtMost(s.workers)
    ensures OneAtMost(Step(s, a).workers) <==> CleanStep(s, a)
  {
    var r, n := Step(s, a).workers, |s.workers|;
    if CleanStep(s, a) {
      forall i, j | 0 <= i < j < |r| ensures r[i].Exited? || r[j].Exited? {
        if j < n {
          assert s.workers[i].Exited? || s.workers[j].Exited?;
        } else {
          assert s.workers[i] in s.workers;
          assert r[i] == s.workers[i];
        }
      }
    } else {
      var i :| 0 <= i < n && !s.workers[i].Exited?;
      assert r[i] == s.workers[i] && r[n] == Entering;
    }
  }

  /**
    Exactly when "at most one worker" holds over a run: iff every registration that starts a worker, the janitor
    not running, finds every earlier worker gone, and so none still to take notice that its channel is closed.
  */
  lemma {:induction false} SingleIffClean(acts: seq<Action>)
    ensures Single(acts) <==> Clean(acts)
  {
    if acts != [] {
      var n := |acts| - 1;
      SingleIffClean(acts[..n]);
      if Single(acts[..n]) {
        StepKeepsOne(Run(acts[..n]), acts[n]);
      }
    }
  }

  // ----- the fields as the source updates them -----

  /** The loop of `unregister`: splice out the first match. */
  method SpliceOut(cs: seq<nat>, c: nat) returns (r: seq<nat>)
    ensures r == RemoveFirst(cs, c)
  {
    for i := 0 to |cs|
      invariant RemoveFirst(cs, c) == cs[..i] + RemoveFirst(cs[i..], c)
    {
      assert cs[i..][1..] == cs[i + 1..];
      if cs[i] == c {
        return cs[..i] + cs[i + 1..];
      }
      assert cs[..i + 1] == cs[..i] + [cs[i]];
    }
    assert cs[|cs|..] == [] && cs[..|cs|] == cs;
    r := cs;
  }

  class JanitorObject {
    var caches: seq<nat>
    var running: bool
    var stop: nat
    var channels: nat
    var closed: set<nat>
    var doubleClose: bool
    var workers: seq<Worker>
    var evicted: seq<nat>

    constructor ()
      ensures Value() == INITIAL
    {
      caches, running, stop, channels, closed, doubleClose, workers, evicted := [], false, 0, 0, {}, false, [], [];
    }

    function Value(): State
      reads this
    {
      State(caches, running, stop, channels, closed, doubleClose, workers, evicted)
    }

    /** close(ch): a panic when it is closed already. */
    method Close(ch: nat)
      modifies this`closed, this`doubleClose
      ensures closed == old(closed) + {ch} && doubleClose == (old(doubleClose) || ch in old(closed))
    {
      doubleClose := doubleClose || ch in closed;
      closed := closed + {ch};
    }

    method Register(c: nat)
      requires Inv(Value())
      modifies this
      ensures Value() == RegisterStep(old(Value()), c) && Inv(Value())
    {
      ghost var before := Value();
      caches := caches + [c];
      if !running {
        channels := channels + 1;
        stop := channels;
        running := true;
        workers := workers + [Entering];
      }
      StepKeepsInv(before, Action.Register(c));
    }

    method Unregister(c: nat)
      requires Inv(Value())
      modifies this
      ensures Value() == UnregisterStep(old(Value()), c) && Inv(Value())
    {
      ghost var before := Value();
      caches := SpliceOut(caches, c);
      if |caches| == 0 && running {
        Close(stop);
        running := false;
      }
      StepKeepsInv(before, Action.Unregister(c));
    }
  }
}

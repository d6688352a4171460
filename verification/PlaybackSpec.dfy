/**
  What one chat's playback does, on values: the queue, the loop counters and the downloaded files of
  its tracks. `PlayNext` and `PlaySong` here are what the methods of module Playback are proved to
  compute (src/vc/calls.go:197-268); the lemmas are about whole runs of stream-end events.

  A track is any value of type T: queues hold pointers, so one track may sit in a queue twice.
*/
module PlaybackSpec {

  import opened Common

  /** The answers the rest of the world gives, indexed by the number of the play attempt. */
  datatype Env = Env(
    send: nat -> bool,                // does the "Downloading ..." message go out?
    download: nat -> Option<string>   // DownloadCachedTrack: None is an error
  )

  datatype Chat<T(==)> = Chat(
    queue: seq<T>,
    loop: map<T, int>,
    file: map<T, string>,
    attempts: nat,         // playSong calls so far
    played: seq<T>,        // tracks handed to PlayMedia, in order
    stops: nat             // times the queue ran out and Stop was called
  )
  {
    ghost predicate Known() {
      forall t | t in queue :: t in loop && t in file
    }
  }

  /** The sum of the positive loop counters along a queue. */
  function LoopSum<T>(q: seq<T>, loop: map<T, int>): (n: nat)
    requires forall t | t in q :: t in loop
  {
    if q == [] then 0 else Max(loop[q[0]], 0) + LoopSum(q[1..], loop)
  }

  /** Lowering one counter never raises the sum, and lowers it strictly for a queue with that track. */
  lemma {:induction false} LoopSumDrops<T>(q: seq<T>, loop: map<T, int>, t: T)
    requires forall u | u in q :: u in loop
    requires t in loop && loop[t] > 0
    ensures LoopSum(q, loop[t := loop[t] - 1]) + (if t in q then 1 else 0) <= LoopSum(q, loop)
  {
    if q != [] {
      LoopSumDrops(q[1..], loop, t);
    }
  }

  ghost function Measure<T>(s: Chat<T>): nat
    requires s.Known()
  {
    LoopSum(s.queue, s.loop) + |s.queue|
  }

  /** What downloadAndPrepareSong leaves as the song's file; "" when it fails. */
  function FileAfter<T>(env: Env, s: Chat<T>, song: T): string
    requires song in s.file
  {
    if s.file[song] != "" then s.file[song]
    else match env.download(s.attempts) case None => "" case Some(f) => f
  }

  /** The head's counter used once. */
  function Repeated<T>(s: Chat<T>): (r: Chat<T>)
    requires s.Known() && s.queue != [] && s.loop[s.queue[0]] > 0
    ensures r.Known() && Measure(r) < Measure(s) && r.loop.Keys == s.loop.Keys
  {
    LoopSumDrops(s.queue, s.loop, s.queue[0]);
    s.(loop := s.loop[s.queue[0] := s.loop[s.queue[0]] - 1])
  }

  /** The head taken off the queue. */
  function Advanced<T>(s: Chat<T>): (r: Chat<T>)
    requires s.Known()
    ensures r.Known() && (s.queue != [] ==> Measure(r) < Measure(s))
  {
    s.(queue := if s.queue == [] then [] else s.queue[1..])
  }

  /** After attempt number `s.attempts` to have the song's file. */
  function Prepared<T>(env: Env, s: Chat<T>, song: T): (r: Chat<T>)
    requires s.Known() && song in s.loop && song in s.file
    ensures r.Known() && song in r.file && Measure(r) == Measure(s)
    ensures r.loop == s.loop && r.file.Keys == s.file.Keys
  {
    s.(file := s.file[song := FileAfter(env, s, song)], attempts := s.attempts + 1)
  }

  /**
    PlayNext: repeat the head while its counter is positive, else advance, else stop. At most
    one PlayMedia call ends it; `cleared` tells whether that call emptied the chat's queue.
  */
  function PlayNext<T>(env: Env, s: Chat<T>, cleared: bool): (r: Chat<T>)
    requires s.Known()
    ensures r.Known() && r.loop.Keys == s.loop.Keys
    decreases Measure(s), 1
  {
    if s.queue != [] && s.loop[s.queue[0]] > 0 then
      PlaySong(env, Repeated(s), s.queue[0], cleared)
    else if |s.queue| >= 2 then
      PlaySong(env, Advanced(s), s.queue[1], cleared)
    else
      s.(queue := [], stops := s.stops + 1)
  }

  /** playSong: announce, download, play; a failed download moves on to the next song. */
  function PlaySong<T>(env: Env, s: Chat<T>, song: T, cleared: bool): (r: Chat<T>)
    requires s.Known() && song in s.loop && song in s.file
    ensures r.Known() && r.loop.Keys == s.loop.Keys
    decreases Measure(s), 2
  {
    var s1 := Prepared(env, s, song);
    if !env.send(s.attempts) then
      s.(attempts := s.attempts + 1)
    else if s1.file[song] == "" then
      PlayNext(env, s1, cleared)
    else
      s1.(played := s1.played + [song], queue := if cleared then [] else s1.queue)
  }

  lemma NextPlays<T>(env: Env, s: Chat<T>, cleared: bool)
    requires s.Known() && |s.queue| >= 2 && s.loop[s.queue[0]] <= 0
    ensures var a := Advanced(s);
            && s.queue[1] in a.loop && s.queue[1] in a.file && Measure(a) < Measure(s)
            && PlayNext(env, s, cleared) == PlaySong(env, a, s.queue[1], cleared)
  {
    assert s.queue[1] in s.queue;
  }

  lemma NoMoreStops<T>(env: Env, s: Chat<T>)
    requires s.Known() && |s.queue| < 2 && (s.queue != [] ==> s.loop[s.queue[0]] <= 0)
    ensures Advanced(s).queue == [] && PlayNext(env, s, false) == Advanced(s).(stops := s.stops + 1)
  {
  }

  /**
    A message that cannot be sent ends the event: one attempt is spent, nothing is played or stopped, and the
    head has been repeated or taken off as for any other song.
  */
  lemma UnsentEndsTheEvent<T>(env: Env, s: Chat<T>, cleared: bool)
    requires s.Known() && s.queue != [] && !env.send(s.attempts)
    requires s.loop[s.queue[0]] > 0 || |s.queue| >= 2
    ensures var r, head := PlayNext(env, s, cleared), s.queue[0];
            && r.played == s.played && r.stops == s.stops && r.file == s.file && r.attempts == s.attempts + 1
            && if s.loop[head] > 0 then r.queue == s.queue && r.loop == s.loop[head := s.loop[head] - 1]
               else r.queue == s.queue[1..] && r.loop == s.loop
  {
  }

  // ----- termination: a bound on the attempts of one call -----

  /** From a non-empty queue one PlayNext makes at most (sum of loop counters) + length - 1 attempts. */
  lemma {:induction false} AttemptBound<T>(env: Env, s: Chat<T>, cleared: bool)
    requires s.Known() && s.queue != []
    ensures PlayNext(env, s, cleared).attempts <= s.attempts + LoopSum(s.queue, s.loop) + |s.queue| - 1
    decreases Measure(s), 1
  {
    if s.loop[s.queue[0]] > 0 {
      LoopSumDrops(s.queue, s.loop, s.queue[0]);
      SongBound(env, Repeated(s), s.queue[0], cleared);
    } else if |s.queue| >= 2 {
      SongBound(env, Advanced(s), s.queue[1], cleared);
    }
  }

  lemma {:induction false} SongBound<T>(env: Env, s: Chat<T>, song: T, cleared: bool)
    requires s.Known() && song in s.loop && song in s.file && s.queue != []
    ensures PlaySong(env, s, song, cleared).attempts <= s.attempts + LoopSum(s.queue, s.loop) + |s.queue|
    decreases Measure(s), 2
  {
    if env.send(s.attempts) && Prepared(env, s, song).file[song] == "" {
      AttemptBound(env, Prepared(env, s, song), cleared);
    }
  }

  // ----- the word of attempts a queue stands for -----

  function Repeat<T>(t: T, n: int): (w: seq<T>)
    ensures |w| == Max(n, 0)
  {
    if n <= 0 then [] else [t] + Repeat(t, n - 1)
  }

  /** t1^(1+l1) . t2^(1+l2) ... : every track of the queue once, and again as often as its counter says. */
  function Upcoming<T>(q: seq<T>, loop: map<T, int>): seq<T>
    requires forall t | t in q :: t in loop
  {
    if q == [] then [] else [q[0]] + Repeat(q[0], loop[q[0]]) + Upcoming(q[1..], loop)
  }

  /** t0^l0 . t1^(1+l1) ... : the head is already playing, so only its repeats are still to come. */
  function Word<T>(q: seq<T>, loop: map<T, int>): seq<T>
    requires forall t | t in q :: t in loop
  {
    if q == [] then [] else Repeat(q[0], loop[q[0]]) + Upcoming(q[1..], loop)
  }

  predicate Distinct<T(==)>(q: seq<T>) {
    forall i, j | 0 <= i < j < |q| :: q[i] != q[j]
  }

  /** The attempts of `word` whose download works, starting from attempt number `n`. */
  function Playable<T>(env: Env, word: seq<T>, file: map<T, string>, n: nat): (w: seq<T>)
    requires forall t | t in word :: t in file
  {
    if word == [] then [] else
    var f := if file[word[0]] != "" then file[word[0]]
             else match env.download(n) case None => "" case Some(f) => f;
    (if f == "" then [] else [word[0]]) + Playable(env, word[1..], file[word[0] := f], n + 1)
  }

  ghost predicate SendsSucceed(env: Env) {
    forall n: nat :: env.send(n)
  }

  lemma {:induction false} UpcomingFrame<T>(q: seq<T>, loop: map<T, int>, t: T, l: int)
    requires t !in q && forall u | u in q :: u in loop
    ensures Upcoming(q, loop[t := l]) == Upcoming(q, loop)
  {
    if q != [] {
      UpcomingFrame(q[1..], loop, t, l);
    }
  }

  /** The word only names tracks of the queue, so what is known of the queue is known of the word. */
  lemma {:induction false} WordKnown<T>(q: seq<T>, loop: map<T, int>)
    requires forall t | t in q :: t in loop
    ensures forall t | t in Word(q, loop) :: t in q
    ensures forall t | t in Upcoming(q, loop) :: t in q
  {
    if q != [] {
      RepeatKnown(q[0], loop[q[0]]);
      WordKnown(q[1..], loop);
    }
  }

  lemma {:induction false} RepeatKnown<T>(t: T, n: int)
    ensures forall u | u in Repeat(t, n) :: u == t
  {
    if n > 0 {
      RepeatKnown(t, n - 1);
    }
  }

  /** The tracks still to be played from `s`, in order. */
  function Plan<T>(env: Env, s: Chat<T>): seq<T>
    requires s.Known()
  {
    WordKnown(s.queue, s.loop);
    Playable(env, Word(s.queue, s.loop), s.file, s.attempts)
  }

  /** What one stream-end event must do when the tracks still to come are `plan` and `word` is still to be tried. */
  ghost predicate Follows<T>(env: Env, s: Chat<T>, plan: seq<T>, word: seq<T>, r: Chat<T>)
  {
    && r.Known() && Distinct(r.queue)
    && if plan == [] then
         && r.queue == [] && r.stops == s.stops + 1 && r.played == s.played
         && r.attempts == s.attempts + |word|
       else
         && r.queue != [] && r.stops == s.stops && r.played == s.played + [plan[0]]
         && Plan(env, r) == plan[1..]
  }

  lemma WordRepeats<T>(s: Chat<T>)
    requires s.Known() && Distinct(s.queue) && s.queue != [] && s.loop[s.queue[0]] > 0
    ensures Word(s.queue, s.loop) == [s.queue[0]] + Word(Repeated(s).queue, Repeated(s).loop)
  {
    UpcomingFrame(s.queue[1..], s.loop, s.queue[0], s.loop[s.queue[0]] - 1);
  }

  lemma WordAdvances<T>(s: Chat<T>)
    requires s.Known() && s.queue != [] && s.loop[s.queue[0]] <= 0
    ensures var rest := s.queue[1..];
            Word(s.queue, s.loop) == if rest == [] then [] else [rest[0]] + Word(rest, s.loop)
  {
  }

  lemma {:induction false} EventFollowsPlan<T>(env: Env, s: Chat<T>)
    requires SendsSucceed(env) && s.Known() && Distinct(s.queue)
    ensures Follows(env, s, Plan(env, s), Word(s.queue, s.loop), PlayNext(env, s, false))
    decreases Measure(s), 1
  {
    if s.queue != [] {
      if s.loop[s.queue[0]] > 0 {
        WordRepeats(s);
        SongFollowsPlan(env, Repeated(s), s.queue[0]);
      } else {
        WordAdvances(s);
        if |s.queue| >= 2 {
          SongFollowsPlan(env, Advanced(s), s.queue[1]);
        }
      }
    }
  }

  /** The first attempt of a word: it is played if its download works, and the rest is the plan of what follows. */
  lemma PlayableNext<T>(env: Env, s: Chat<T>, song: T)
    requires s.Known() && song in s.loop && song in s.file
    ensures forall t | t in [song] + Word(s.queue, s.loop) :: t in s.file
    ensures var s1 := Prepared(env, s, song);
            Playable(env, [song] + Word(s.queue, s.loop), s.file, s.attempts)
            == (if s1.file[song] == "" then [] else [song]) + Plan(env, s1)
  {
    WordKnown(s.queue, s.loop);
    var word := [song] + Word(s.queue, s.loop);
    assert word[1..] == Word(s.queue, s.loop);
  }

  lemma {:induction false} SongFollowsPlan<T>(env: Env, s: Chat<T>, song: T)
    requires SendsSucceed(env) && s.Known() && Distinct(s.queue) && song in s.queue
    ensures forall t | t in [song] + Word(s.queue, s.loop) :: t in s.file
    ensures var word := [song] + Word(s.queue, s.loop);
            Follows(env, s, Playable(env, word, s.file, s.attempts), word, PlaySong(env, s, song, false))
    decreases Measure(s), 2
  {
    PlayableNext(env, s, song);
    if Prepared(env, s, song).file[song] == "" {
      EventFollowsPlan(env, Prepared(env, s, song));
    }
  }

  // ----- whole runs -----

  /** `k` stream-end events, with no other command in between and every PlayMedia call succeeding. */
  function Events<T>(env: Env, s: Chat<T>, k: nat): (r: Chat<T>)
    requires s.Known()
    ensures r.Known()
    decreases k
  {
    if k == 0 then s else Events(env, PlayNext(env, s, false), k - 1)
  }

  lemma {:induction false} EventsSnoc<T>(env: Env, s: Chat<T>, k: nat)
    requires s.Known()
    ensures Events(env, s, k + 1) == PlayNext(env, Events(env, s, k), false)
    decreases k
  {
    if k > 0 {
      EventsSnoc(env, PlayNext(env, s, false), k - 1);
    }
  }

  /** After k <= |plan| events exactly the first k tracks of the plan have been played, and the rest are planned. */
  ghost predicate Consumed<T>(env: Env, s: Chat<T>, k: nat, r: Chat<T>)
    requires s.Known() && r.Known() && k <= |Plan(env, s)|
  {
    && Distinct(r.queue) && r.stops == s.stops && (k > 0 ==> r.queue != [])
    && r.played == s.played + Plan(env, s)[..k] && Plan(env, r) == Plan(env, s)[k..]
  }

  lemma OneFurther<T>(played: seq<T>, plan: seq<T>, k: nat)
    requires k < |plan|
    ensures played + plan[..k] + [plan[k]] == played + plan[..k + 1]
    ensures plan[k..] != [] && plan[k..][0] == plan[k] && plan[k..][1..] == plan[k + 1..]
  {
  }

  lemma ConsumedNext<T>(env: Env, s: Chat<T>, k: nat, r: Chat<T>)
    requires SendsSucceed(env) && s.Known() && r.Known() && k < |Plan(env, s)| && Consumed(env, s, k, r)
    ensures Consumed(env, s, k + 1, PlayNext(env, r, false))
  {
    EventFollowsPlan(env, r);
    OneFurther(s.played, Plan(env, s), k);
  }

  lemma {:induction false} PlanIsConsumed<T>(env: Env, s: Chat<T>, k: nat)
    requires SendsSucceed(env) && s.Known() && Distinct(s.queue) && k <= |Plan(env, s)|
    ensures Consumed(env, s, k, Events(env, s, k))
    decreases k
  {
    if k > 0 {
      PlanIsConsumed(env, s, k - 1);
      EventsSnoc(env, s, k - 1);
      ConsumedNext(env, s, k - 1, Events(env, s, k - 1));
    }
  }

  /**
    The playback trace. With distinct tracks, the first |plan| events hand PlayMedia exactly the tracks
    of t0^l0 . t1^(1+l1) ... whose download works, one an event and in that order, and the chat stays
    active; one more event empties the queue and stops the call.
  */
  lemma {:induction false} PlaybackTrace<T>(env: Env, s: Chat<T>, k: nat)
    requires SendsSucceed(env) && s.Known() && Distinct(s.queue) && k <= |Plan(env, s)|
    ensures Events(env, s, k).played == s.played + Plan(env, s)[..k]
    ensures k > 0 ==> Events(env, s, k).queue != []
    ensures Events(env, s, k).stops == s.stops
    ensures k == |Plan(env, s)| ==>
              var last := Events(env, s, k + 1);
              && last.queue == [] && last.stops == s.stops + 1
              && last.played == s.played + Plan(env, s)
  {
    PlanIsConsumed(env, s, k);
    if k == |Plan(env, s)| {
      EventsSnoc(env, s, k);
      EventFollowsPlan(env, Events(env, s, k));
    }
  }

  /** When every download of the word works, the plan is the word itself. */
  lemma {:induction false} PlanWithoutFailures<T>(env: Env, word: seq<T>, file: map<T, string>, n: nat)
    requires forall t | t in word :: t in file
    requires forall i: nat :: env.download(i).Some? && env.download(i).value != ""
    ensures Playable(env, word, file, n) == word
  {
    if word != [] {
      var f := if file[word[0]] != "" then file[word[0]] else env.download(n).value;
      PlanWithoutFailures(env, word[1..], file[word[0] := f], n + 1);
    }
  }

  /** The attempt bound is attained: with distinct tracks and no download working, a single call tries them all. */
  lemma {:induction false} AttemptBoundIsTight<T>(env: Env, s: Chat<T>)
    requires SendsSucceed(env) && s.Known() && Distinct(s.queue) && s.queue != []
    requires forall i: nat :: env.download(i).None?
    requires forall t | t in s.queue :: s.file[t] == ""
    ensures PlayNext(env, s, false).attempts == s.attempts + LoopSum(s.queue, s.loop) + |s.queue| - 1
    ensures PlayNext(env, s, false).stops == s.stops + 1
  {
    WordKnown(s.queue, s.loop);
    NothingPlayable(env, Word(s.queue, s.loop), s.file, s.attempts);
    EventFollowsPlan(env, s);
    UpcomingLength(s.queue[1..], s.loop);
  }

  lemma {:induction false} NothingPlayable<T>(env: Env, word: seq<T>, file: map<T, string>, n: nat)
    requires forall t | t in word :: t in file && file[t] == ""
    requires forall i: nat :: env.download(i).None?
    ensures Playable(env, word, file, n) == []
  {
    if word != [] {
      NothingPlayable(env, word[1..], file[word[0] := ""], n + 1);
    }
  }

  lemma {:induction false} UpcomingLength<T>(q: seq<T>, loop: map<T, int>)
    requires forall t | t in q :: t in loop
    ensures |Upcoming(q, loop)| == LoopSum(q, loop) + |q|
  {
    if q != [] {
      UpcomingLength(q[1..], loop);
    }
  }

  // ----- an accepted playlist -----

  /** handleMultipleTracks on an empty queue: the first accepted track loops once, the others do not. */
  ghost predicate FreshPlaylist<T>(s: Chat<T>, tracks: seq<T>) {
    && s.Known() && s.queue == tracks && Distinct(tracks) && tracks != []
    && s.loop[tracks[0]] == 1 && forall i | 0 < i < |tracks| :: s.loop[tracks[i]] == 0
  }

  /** Loop = 1 on track 0 makes the word of the queue the playlist itself: nothing is dropped or repeated. */
  lemma {:induction false} PlaylistWord<T>(s: Chat<T>, tracks: seq<T>)
    requires FreshPlaylist(s, tracks)
    ensures Word(s.queue, s.loop) == tracks
  {
    var rest := tracks[1..];
    assert forall t | t in rest :: s.loop[t] == 0 by {
      assert forall i | 0 <= i < |rest| :: rest[i] == tracks[i + 1];
    }
    UpcomingOnce(rest, s.loop);
    RepeatOnce(tracks[0]);
    calc {
      Word(s.queue, s.loop);
      Repeat(tracks[0], 1) + Upcoming(rest, s.loop);
      [tracks[0]] + rest;
      tracks;
    }
  }

  lemma RepeatOnce<T>(t: T)
    ensures Repeat(t, 1) == [t]
  {
    assert Repeat(t, 0) == [];
  }

  lemma {:induction false} UpcomingOnce<T>(q: seq<T>, loop: map<T, int>)
    requires forall t | t in q :: t in loop && loop[t] == 0
    ensures Upcoming(q, loop) == q
  {
    if q != [] {
      UpcomingOnce(q[1..], loop);
      assert q == [q[0]] + [] + q[1..];
    }
  }

  /**
    The handler's own PlayNext and the stream-end events after it play every accepted track whose
    download works exactly once, in playlist order, and then stop the call.
  */
  lemma {:induction false} PlaylistPlaysOnceInOrder<T>(env: Env, s: Chat<T>, tracks: seq<T>)
    requires SendsSucceed(env) && FreshPlaylist(s, tracks)
    ensures forall t | t in tracks :: t in s.file
    ensures var want := Playable(env, tracks, s.file, s.attempts);
            && (forall k: nat | k <= |want| :: Events(env, s, k).played == s.played + want[..k])
            && Events(env, s, |want| + 1).queue == [] && Events(env, s, |want| + 1).stops == s.stops + 1
            && Events(env, s, |want| + 1).played == s.played + want
  {
    PlaylistWord(s, tracks);
    var want := Playable(env, tracks, s.file, s.attempts);
    forall k: nat | k <= |want| ensures Events(env, s, k).played == s.played + want[..k] {
      PlaybackTrace(env, s, k);
    }
    PlaybackTrace(env, s, |want|);
  }

  /** The same, seen from after the handler's PlayNext. */
  lemma {:induction false} PlaylistRuns<T>(env: Env, s: Chat<T>, tracks: seq<T>, k: nat)
    requires SendsSucceed(env) && FreshPlaylist(s, tracks)
    ensures forall t | t in tracks :: t in s.file
    ensures var want, r := Playable(env, tracks, s.file, s.attempts), Events(env, PlayNext(env, s, false), k);
            && (k < |want| ==> r.played == s.played + want[..k + 1] && r.stops == s.stops)
            && (k == |want| ==> r.played == s.played + want && r.stops == s.stops + 1 && r.queue == [])
  {
    PlaylistWord(s, tracks);
    var n := |Playable(env, tracks, s.file, s.attempts)|;
    if k < n {
      PlaybackTrace(env, s, k + 1);
    } else if k == n {
      PlaybackTrace(env, s, k);
    }
  }
}

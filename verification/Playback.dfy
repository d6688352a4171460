/**
  TelegramCalls: PlayMedia with its rotation through the assistants, and PlayNext / playSong over the
  chat queues (src/vc/calls.go). The queues, the tracks and the assistant pool are the heap objects of
  modules ChatQueue and Assistants; PlayNext is proved to compute PlaybackSpec.PlayNext.
*/
module Playback {
  import opened Common
  import opened ChatQueue
  import opened Assistants
  import S = PlaybackSpec

  /** The errors `play` returns. */
  datatype Error =
    | NoClients
    | JoinFailed(msg: Message)
    | NoVideoChat                 // replaces the error of a call that "is closed"
    | PlaybackFailed(msg: Message)
  {
    /** Does the text contain a marker that makes PlayMedia try another assistant? */
    predicate Rotates() {
      (JoinFailed? || PlaybackFailed?)
      && (msg.FROZEN_METHOD_INVALID || msg.CHANNELS_TOO_MUCH || msg.FLOOD_WAIT_X)
    }
  }

  /** What the outcome of call.Play comes to. */
  function StreamError(stream: Reply<()>): Option<Error> {
    if stream.Got? then None
    else Some(if stream.msg.IS_CLOSED then NoVideoChat else PlaybackFailed(stream.msg))
  }

  /** The assistant gets as far as call.Play: no joining is needed, or the answers let it in. */
  predicate ReachesStream(chatID: int, at: Attempt) {
    chatID >= 0 || LetsIn(at.ans)
  }

  ghost predicate ReachesAll(chatID: int, at: nat -> Attempt) {
    forall i: nat :: ReachesStream(chatID, at(i))
  }

  // ----- the rotation through the assistants -----

  /** One attempt: the assigned index it found, the client it used, whether that got to call.Play, and the error. */
  datatype Try = Try(index: int, client: int, streamed: bool, err: Option<Error>)

  predicate Rotating(err: Option<Error>) {
    err.Some? && err.value.Rotates()
  }

  ghost predicate AllRotate(tries: seq<Try>) {
    forall i | 0 <= i < |tries| :: Rotating(tries[i].err)
  }

  /**
    The attempts of one PlayMedia among `n` clients: at most one per client. All but the last failed with a
    rotating error; the last succeeded, or failed with another error, or was client n's.
  */
  ghost predicate Rotation(tries: seq<Try>, n: nat) {
    && 1 <= |tries| <= n
    && (forall i | 0 <= i < |tries| - 1 :: Rotating(tries[i].err))
    && (Rotating(tries[|tries| - 1].err) ==> |tries| == n)
  }

  lemma RotationEnds(tries: seq<Try>, t: Try, n: nat)
    requires AllRotate(tries) && |tries| < n
    ensures Rotation(tries + [t], n) <==> !Rotating(t.err) || |tries| + 1 == n
    ensures Rotating(t.err) ==> AllRotate(tries + [t])
  {
    assert (tries + [t])[|tries|] == t;
  }

  /** The attempt ended as its stream did, if it got there; without a stream it is an error. */
  ghost predicate Fits(chatID: int, at: Attempt, t: Try) {
    && (ReachesStream(chatID, at) ==> t.streamed)
    && if t.streamed then t.err == StreamError(at.stream) else t.err.Some?
  }

  /** Without a join the client is the one assigned, and with no assignment in range the one drawn. */
  ghost predicate Sticks(chatID: int, at: Attempt, t: Try, n: nat) {
    && 0 <= t.client < n
    && (chatID >= 0 && at.dbf.find && 0 <= t.index < n ==> t.client == t.index)
    && (chatID >= 0 && !(0 <= t.index < n) ==> t.client == DrawnOf(at.dbf.draw, n))
  }

  ghost predicate AsAnswered(chatID: int, at: nat -> Attempt, tries: seq<Try>, n: nat) {
    forall i | 0 <= i < |tries| :: Fits(chatID, at(i), tries[i]) && Sticks(chatID, at(i), tries[i], n)
  }

  /** After an attempt whose deletion worked the next one finds no assignment. */
  ghost predicate StartsVacant(at: nat -> Attempt, tries: seq<Try>) {
    forall i | 0 < i < |tries| :: at(i - 1).deleteOk ==> tries[i].index == -1
  }

  /** From the assignment `first` the attempts have come to the assignment `now`. */
  ghost predicate Explains(chatID: int, at: nat -> Attempt, tries: seq<Try>, n: nat, first: int, now: int) {
    && AsAnswered(chatID, at, tries, n) && StartsVacant(at, tries)
    && (if tries == [] then now else tries[0].index) == first
    && (tries != [] && Rotating(tries[|tries| - 1].err) && at(|tries| - 1).deleteOk ==> now == -1)
  }

  lemma ExplainsOneMore(chatID: int, at: nat -> Attempt, tries: seq<Try>, n: nat, first: int, now: int, t: Try, later: int)
    requires Explains(chatID, at, tries, n, first, now) && AllRotate(tries)
    requires t.index == now && Fits(chatID, at(|tries|), t) && Sticks(chatID, at(|tries|), t, n)
    requires Rotating(t.err) && at(|tries|).deleteOk ==> later == -1
    ensures Explains(chatID, at, tries + [t], n, first, later)
  {
    AsAnsweredOneMore(chatID, at, tries, n, t);
    var r := tries + [t];
    forall i | 0 < i < |r| && at(i - 1).deleteOk ensures r[i].index == -1 {
      if i == |tries| {
        assert Rotating(tries[i - 1].err);
      }
    }
  }

  lemma AsAnsweredOneMore(chatID: int, at: nat -> Attempt, tries: seq<Try>, n: nat, t: Try)
    requires AsAnswered(chatID, at, tries, n) && Fits(chatID, at(|tries|), t) && Sticks(chatID, at(|tries|), t, n)
    ensures AsAnswered(chatID, at, tries + [t], n)
  {
  }

  /** So, in a private chat, the next assistant is the one drawn afresh. */
  lemma RotationDrawsAfresh(chatID: int, at: nat -> Attempt, tries: seq<Try>, n: nat, i: nat)
    requires AsAnswered(chatID, at, tries, n) && StartsVacant(at, tries)
    requires chatID >= 0 && 0 < i < |tries| && at(i - 1).deleteOk
    ensures tries[i].client == DrawnOf(at(i).dbf.draw, n)
  {
    assert Sticks(chatID, at(i), tries[i], n);
  }

  /** How a rotation that has come to client i of n ends, when every attempt reaches its stream. */
  function FinalError(at: nat -> Attempt, i: nat, n: nat): Option<Error>
    requires i < n
    decreases n - i
  {
    var err := StreamError(at(i).stream);
    if Rotating(err) && i + 1 < n then FinalError(at, i + 1, n) else err
  }

  lemma {:induction false} RotationEndsSo(chatID: int, at: nat -> Attempt, tries: seq<Try>, n: nat, i: nat)
    requires Rotation(tries, n) && AsAnswered(chatID, at, tries, n) && ReachesAll(chatID, at) && i < |tries|
    ensures tries[|tries| - 1].err == FinalError(at, i, n)
    decreases n - i
  {
    assert Fits(chatID, at(i), tries[i]);
    if i < |tries| - 1 {
      RotationEndsSo(chatID, at, tries, n, i + 1);
    }
  }

  // ----- what a rotation does to the queues -----

  /** All queues, with this chat's forgotten or not. */
  function Without(queues: map<int, seq<Track>>, chatID: int, forgotten: bool): map<int, seq<Track>> {
    if forgotten then queues - {chatID} else queues
  }

  /** The queues after these attempts, when they were `queues` before: one failure is enough to forget the chat's. */
  function QueuesAfter(queues: map<int, seq<Track>>, chatID: int, tries: seq<Try>): map<int, seq<Track>> {
    Without(queues, chatID, tries != [] && tries[0].err.Some?)
  }

  lemma QueuesAfterOneMore(queues: map<int, seq<Track>>, chatID: int, tries: seq<Try>, t: Try)
    requires AllRotate(tries)
    ensures QueuesAfter(queues, chatID, tries + [t]) == Without(QueuesAfter(queues, chatID, tries), chatID, t.err.Some?)
  {
    assert queues - {chatID} - {chatID} == queues - {chatID};
    assert tries != [] ==> Rotating(tries[0].err);
  }

  /**
    Exactly when a chat keeps its queue through PlayMedia: iff the first assistant's stream starts. Whatever
    comes of the others, a first failure has lost it.
  */
  lemma QueueKeptIffFirstPlays(chatID: int, at: nat -> Attempt, tries: seq<Try>, n: nat, queues: map<int, seq<Track>>)
    requires Rotation(tries, n) && AsAnswered(chatID, at, tries, n) && chatID in queues && queues[chatID] != []
    ensures QueuesAfter(queues, chatID, tries) == queues <==> tries[0].streamed && at(0).stream.Got?
    ensures chatID in QueuesAfter(queues, chatID, tries) <==> tries[0].streamed && at(0).stream.Got?
    ensures ReachesStream(chatID, at(0)) ==> tries[0].streamed
  {
    assert Fits(chatID, at(0), tries[0]);
    assert chatID !in queues - {chatID};
  }

  /** The first k assistants meet a flood limit, and the next one plays. */
  ghost predicate FloodsThenPlays(chatID: int, at: nat -> Attempt, k: nat) {
    && (forall i: nat | i <= k :: ReachesStream(chatID, at(i)))
    && (forall i: nat | i < k :: at(i).stream == Failed(NO_MARKER.(FLOOD_WAIT_X := true)))
    && at(k).stream.Got?
  }

  /**
    "A track that plays is queued" is false: with some floods first and a client left, PlayMedia succeeds, and
    the chat's queue is gone.
  */
  lemma RotationCanEndWell(chatID: int, at: nat -> Attempt, tries: seq<Try>, n: nat, k: nat, queues: map<int, seq<Track>>)
    requires Rotation(tries, n) && AsAnswered(chatID, at, tries, n) && 0 < k < n && FloodsThenPlays(chatID, at, k)
    ensures |tries| == k + 1 && tries[k].err == None
    ensures chatID !in QueuesAfter(queues, chatID, tries)
  {
    assert forall i: nat | i < |tries| && i < k :: Fits(chatID, at(i), tries[i]);
    assert |tries| > k;
    assert Fits(chatID, at(k), tries[k]);
    assert Fits(chatID, at(0), tries[0]);
  }

  // ----- the calls to the binding -----

  datatype BindingCall = PlayCall(chatID: int, client: int, song: Track) | StopCall(chatID: int, client: int)

  /** The voice-call binding, as far as it is called on; how a call turns out is an argument. */
  class Binding {
    var calls: seq<BindingCall>

    constructor ()
      ensures calls == []
    {
      calls := [];
    }

    method Call(call: BindingCall)
      modifies this
      ensures calls == old(calls) + [call]
    {
      calls := calls + [call];
    }
  }

  /** The streams that the attempts asked for, in order. */
  function Streams(chatID: int, song: Track, tries: seq<Try>): seq<BindingCall> {
    if tries == [] then []
    else var n := |tries| - 1; Streams(chatID, song, tries[..n]) + Streamed(chatID, song, tries[n])
  }

  function Streamed(chatID: int, song: Track, t: Try): seq<BindingCall> {
    if t.streamed then [PlayCall(chatID, t.client, song)] else []
  }

  lemma StreamsSnoc(chatID: int, song: Track, tries: seq<Try>, t: Try)
    ensures Streams(chatID, song, tries + [t]) == Streams(chatID, song, tries) + Streamed(chatID, song, t)
  {
    assert (tries + [t])[..|tries|] == tries;
  }

  lemma {:induction false} FirstStream(chatID: int, song: Track, tries: seq<Try>)
    requires tries != [] && tries[0].streamed
    ensures Streams(chatID, song, tries) != []
    ensures Streams(chatID, song, tries)[0] == PlayCall(chatID, tries[0].client, song)
  {
    if |tries| > 1 {
      FirstStream(chatID, song, tries[..|tries| - 1]);
    }
  }

  /** The first of the calls since `before` streams this song in this chat, and is the only one if its stream starts. */
  ghost predicate Heard(chatID: int, song: Track, stream: Reply<()>, before: seq<BindingCall>, after: seq<BindingCall>) {
    && |before| < |after| && before <= after
    && after[|before|].PlayCall? && after[|before|].chatID == chatID && after[|before|].song == song
    && (stream.Got? ==> |after| == |before| + 1)
  }

  lemma RotationIsHeard(chatID: int, song: Track, at: Attempt, tries: seq<Try>, n: nat, before: seq<BindingCall>)
    requires Rotation(tries, n) && Fits(chatID, at, tries[0]) && ReachesStream(chatID, at)
    ensures tries[0].err.Some? == at.stream.Failed?
    ensures Heard(chatID, song, at.stream, before, before + Streams(chatID, song, tries))
  {
    FirstStream(chatID, song, tries);
    if at.stream.Got? {
      assert |tries| == 1 && tries == [] + [tries[0]];
      StreamsSnoc(chatID, song, [], tries[0]);
    }
  }

  class TelegramCalls {
    const chats: ChatCacher
    const pool: AssistantPool
    const binding: Binding
    const env: S.Env
    const media: nat -> nat -> Attempt    // what answers PlayMedia in a play attempt, try by try

    var attempts: nat                     // playSong calls so far
    var handed: map<int, seq<Track>>      // what PlayMedia has been given, chat by chat
    var stops: nat                        // Stop calls so far

    ghost predicate Valid()
      reads chats, chats.Arrays(),
        pool, pool.db, pool.db.assistantCache, pool.db.assistantCache.clock, pool.statusCache, pool.statusCache.clock, pool.inviteCache, pool.inviteCache.clock
    {
      chats.Valid() && pool.Valid()
    }

    constructor (chats: ChatCacher, pool: AssistantPool, binding: Binding, env: S.Env, media: nat -> nat -> Attempt)
      ensures this.chats == chats && this.pool == pool && this.binding == binding && this.env == env && this.media == media
      ensures attempts == 0 && handed == map[] && stops == 0
    {
      this.chats, this.pool, this.binding, this.env, this.media := chats, pool, binding, env, media;
      attempts, handed, stops := 0, map[], 0;
    }

    /** The objects that PlayMedia works on, apart from the chat's backing array. */
    ghost function Parts(): set<object> {
      {chats, binding, pool.telegram, pool.db, pool.db.assistantCache, pool.db.assistantCache.clock, pool.statusCache, pool.inviteCache}
    }

    /** What PlayMedia has been given for this chat, in order. */
    function HandedTo(chatID: int): seq<Track>
      reads this
    {
      if chatID in handed then handed[chatID] else []
    }

    /** The counters and files of some tracks. */
    ghost static predicate TracksShow(loop: map<Track, int>, file: map<Track, string>)
      requires loop.Keys == file.Keys
      reads loop.Keys
    {
      forall t | t in loop :: t.Loop == loop[t] && t.FilePath == file[t]
    }

    /** `s` is the value of this chat's playback: its queue, its tracks' counters and files, and what was played. */
    ghost predicate Shows(chatID: int, s: S.Chat<Track>)
      reads this, chats, chats.Arrays(),
        pool, pool.db, pool.db.assistantCache, pool.db.assistantCache.clock, pool.statusCache, pool.statusCache.clock, pool.inviteCache, pool.inviteCache.clock, s.loop.Keys
    {
      && Valid() && s.Known() && s.loop.Keys == s.file.Keys
      && chats.QueueOf(chatID) == s.queue
      && TracksShow(s.loop, s.file)
      && attempts == s.attempts && HandedTo(chatID) == s.played && stops == s.stops
    }

    /** Every other chat has kept its queue, what it was played, its assignment, invite link and memberships. */
    twostate predicate OtherChatsKept(chatID: int)
      reads this, chats, pool.db, pool.statusCache, pool.inviteCache
    {
      && chats.Others(chatID) == old(chats.Others(chatID)) && handed - {chatID} == old(handed - {chatID})
      && pool.Rest(chatID) == old(pool.Rest(chatID))
    }

    // ----- PlayMedia -----

    /** The part of an attempt that finds and joins an assistant; no queue is touched. */
    method Find(chatID: int, at: Attempt) returns (call: Option<Reply<int>>, client: int, ghost how: Joining)
      requires Valid()
      modifies pool.telegram, pool.db, pool.db.assistantCache, pool.db.assistantCache.clock, pool.statusCache, pool.inviteCache
      ensures Valid() && chats.Footprint(chatID) == old(chats.Footprint(chatID))
      ensures chats.Queues == old(chats.Queues)
      ensures call.None? <==> pool.Count == 0
      ensures call.Some? ==> 0 <= client < pool.Count && (call.value.Got? ==> call.value.value == client)
      ensures call.Some? && ReachesStream(chatID, at) ==> call.value.Got?
      ensures call.Some? && chatID >= 0 ==> call.value.Got? && pool.telegram.acts == old(pool.telegram.acts)
      ensures call.Some? ==> Sticks(chatID, at, Try(old(pool.db.Assigned(chatID)), client, true, None), pool.Count)
      ensures call.Some? && chatID < 0 ==> JoinedFor(chatID, at, client, how, call.value.Got?)
      ensures pool.Rest(chatID) == old(pool.Rest(chatID))
    {
      call, client, how := pool.Acquire(chatID, at);
    }

    /** The attempt's join went as `how` says, did what that takes, and was stored or forgotten. */
    twostate predicate JoinedFor(chatID: int, at: Attempt, client: int, how: Joining, got: bool)
      requires client in pool.uBContext
      reads pool, pool.telegram, pool.db, pool.statusCache, pool.statusCache.clock, pool.inviteCache
    {
      && (got <==> how.Admits(at.ans))
      && pool.telegram.acts == old(pool.telegram.acts) + how.Acts(chatID, pool.uBContext[client].id, at.ans)
      && pool.WentSo(chatID, client, old(pool.statusCache.written), old(pool.inviteCache.written),
                     old(pool.statusCache.clock.now), pool.statusCache.clock.now, at.ans, how)
      && (got && at.joinDbf.set_ ==> pool.db.Assigned(chatID) == client)
      && (!got ==> pool.Forgotten(chatID, client, at.joinDbf))
    }

    /** ClearChat, seen from here. */
    method Clear(chatID: int)
      requires Valid()
      modifies chats, chats.Footprint(chatID)
      ensures Valid() && chats.Queues == old(chats.Queues) - {chatID}
      ensures chats.Footprint(chatID) <= old(chats.Footprint(chatID))
    {
      chats.ClearChat(chatID);
    }

    /** RemoveAssistant, seen from here. */
    method Forget(chatID: int, deleteOk: bool)
      requires Valid()
      modifies pool.db, pool.db.assistantCache, pool.db.assistantCache.clock
      ensures Valid() && chats.Footprint(chatID) == old(chats.Footprint(chatID))
      ensures chats.Queues == old(chats.Queues)
      ensures deleteOk ==> pool.db.Assigned(chatID) == -1
      ensures pool.Rest(chatID) == old(pool.Rest(chatID))
    {
      pool.Forget(chatID, deleteOk);
    }

    /** One attempt. With clients, an error forgets the chat's queue; nothing else happens to any queue. */
    method Play(chatID: int, song: Track, at: Attempt) returns (t: Try, ghost how: Joining)
      requires Valid()
      modifies Parts(), chats.Footprint(chatID)
      ensures Valid() && chats.Footprint(chatID) <= old(chats.Footprint(chatID))
      ensures pool.Count == 0 ==> t.err == Some(NoClients) && !t.streamed
      ensures pool.Count > 0 ==> Fits(chatID, at, t) && Sticks(chatID, at, t, pool.Count)
      ensures pool.Count > 0 && chatID < 0 ==> t.streamed == how.Admits(at.ans)
      ensures pool.Count > 0 && 0 <= t.client < pool.Count && chatID < 0 ==>
                pool.telegram.acts == old(pool.telegram.acts) + how.Acts(chatID, pool.uBContext[t.client].id, at.ans)
      ensures t.index == old(pool.db.Assigned(chatID))
      ensures binding.calls == old(binding.calls) + Streamed(chatID, song, t)
      ensures chats.Queues == Without(old(chats.Queues), chatID, t.err.Some? && pool.Count > 0)
      ensures pool.Rest(chatID) == old(pool.Rest(chatID))
    {
      var index := pool.db.Assigned(chatID);
      var call, client;
      call, client, how := Find(chatID, at);
      if call.None? {
        return Try(index, client, false, Some(NoClients)), how;
      }
      var err := StreamIfJoined(chatID, song, client, call.value, at.stream);
      t := Try(index, client, call.value.Got?, err);
    }

    /** The end of an attempt: a failed join forgets the chat's queue, and otherwise the stream is asked for. */
    method StreamIfJoined(chatID: int, song: Track, client: int, joined: Reply<int>, stream: Reply<()>)
      returns (err: Option<Error>)
      requires Valid()
      modifies chats, binding, chats.Footprint(chatID)
      ensures Valid() && chats.Footprint(chatID) <= old(chats.Footprint(chatID))
      ensures err == if joined.Got? then StreamError(stream) else Some(JoinFailed(joined.msg))
      ensures binding.calls == if joined.Got? then old(binding.calls) + [PlayCall(chatID, client, song)] else old(binding.calls)
      ensures chats.Queues == Without(old(chats.Queues), chatID, err.Some?)
    {
      if joined.Failed? {
        Clear(chatID);
        return Some(JoinFailed(joined.msg));
      }
      err := Stream(chatID, song, client, stream);
    }

    /** call.Play; an error forgets the chat's queue. */
    method Stream(chatID: int, song: Track, client: int, stream: Reply<()>) returns (err: Option<Error>)
      requires Valid()
      modifies chats, binding, chats.Footprint(chatID)
      ensures Valid() && chats.Footprint(chatID) <= old(chats.Footprint(chatID))
      ensures err == StreamError(stream)
      ensures binding.calls == old(binding.calls) + [PlayCall(chatID, client, song)]
      ensures chats.Queues == Without(old(chats.Queues), chatID, err.Some?)
    {
      binding.Call(PlayCall(chatID, client, song));
      err := StreamError(stream);
      if err.Some? {
        Clear(chatID);
      }
    }

    /** One turn of the rotation: play, and drop the chat's assignment when another assistant is to be tried. */
    method Turn(chatID: int, song: Track, at: Attempt) returns (t: Try)
      requires Valid() && pool.Count > 0
      modifies Parts(), chats.Footprint(chatID)
      ensures Valid() && chats.Footprint(chatID) <= old(chats.Footprint(chatID))
      ensures Fits(chatID, at, t) && Sticks(chatID, at, t, pool.Count)
      ensures t.index == old(pool.db.Assigned(chatID))
      ensures Rotating(t.err) && at.deleteOk ==> pool.db.Assigned(chatID) == -1
      ensures binding.calls == old(binding.calls) + Streamed(chatID, song, t)
      ensures chats.Queues == Without(old(chats.Queues), chatID, t.err.Some?)
      ensures pool.Rest(chatID) == old(pool.Rest(chatID))
    {
      ghost var how;
      t, how := Play(chatID, song, at);
      if t.err.Some? && t.err.value.Rotates() {
        label Played:
        Forget(chatID, at.deleteOk);
        assert pool.db.Others(chatID) == old@Played(pool.db.Others(chatID));
      }
    }

    /**
      What the attempts so far have come to, from the queues `queues`, the binding calls `calls` and the assigned
      index `index`; a working deletion after the last one has left its mark.
    */
    ghost predicate CameTo(chatID: int, song: Track, at: nat -> Attempt, tries: seq<Try>,
                           queues: map<int, seq<Track>>, calls: seq<BindingCall>, index: int)
      reads chats, binding, pool, pool.db
    {
      && Explains(chatID, at, tries, pool.Count, index, pool.db.Assigned(chatID))
      && chats.Queues == QueuesAfter(queues, chatID, tries)
      && binding.calls == calls + Streams(chatID, song, tries)
    }

    /** Before the first attempt. */
    lemma NothingYet(chatID: int, song: Track, at: nat -> Attempt)
      ensures AllRotate([]) && CameTo(chatID, song, at, [], chats.Queues, binding.calls, pool.db.Assigned(chatID))
    {
    }

    /** One more attempt. */
    method OneMore(chatID: int, song: Track, at: nat -> Attempt, tries: seq<Try>,
                   ghost queues: map<int, seq<Track>>, ghost calls: seq<BindingCall>, ghost index: int)
      returns (more: seq<Try>, again: bool)
      requires Valid() && |tries| < pool.Count && AllRotate(tries)
      requires CameTo(chatID, song, at, tries, queues, calls, index)
      modifies Parts(), chats.Footprint(chatID)
      ensures Valid() && chats.Footprint(chatID) <= old(chats.Footprint(chatID))
      ensures |more| == |tries| + 1 && CameTo(chatID, song, at, more, queues, calls, index)
      ensures again == Rotating(more[|tries|].err)
      ensures again ==> AllRotate(more)
      ensures !again || |more| == pool.Count ==> Rotation(more, pool.Count)
      ensures pool.Rest(chatID) == old(pool.Rest(chatID))
    {
      ghost var before := pool.db.Assigned(chatID);
      var t := Turn(chatID, song, at(|tries|));
      RotationEnds(tries, t, pool.Count);
      QueuesAfterOneMore(queues, chatID, tries, t);
      StreamsSnoc(chatID, song, tries, t);
      ExplainsOneMore(chatID, at, tries, pool.Count, index, before, t, pool.db.Assigned(chatID));
      more, again := tries + [t], Rotating(t.err);
    }

    /**
      The rotation through the assistants, with the i-th attempt answered by `at(i)`. With clients, an error
      leaves the chat's queue empty; a rotation empties it even if a later assistant succeeds. An attempt after
      one whose deletion worked finds no assignment. No other chat's queue, assignment, link or membership
      changes.
    */
    method PlayMedia(chatID: int, song: Track, at: nat -> Attempt) returns (err: Option<Error>, tries: seq<Try>)
      requires Valid()
      modifies this`handed, Parts(), chats.Footprint(chatID)
      ensures Valid() && chats.Footprint(chatID) <= old(chats.Footprint(chatID))
      ensures handed == old(handed)[chatID := old(HandedTo(chatID)) + [song]]
      ensures if pool.Count == 0 then err == Some(NoClients) && tries == []
              else Rotation(tries, pool.Count) && err == tries[|tries| - 1].err
      ensures AsAnswered(chatID, at, tries, pool.Count) && StartsVacant(at, tries)
      ensures tries != [] ==> tries[0].index == old(pool.db.Assigned(chatID))
      ensures Rotating(err) && at(|tries| - 1).deleteOk ==> pool.db.Assigned(chatID) == -1
      ensures binding.calls == old(binding.calls) + Streams(chatID, song, tries)
      ensures chats.Queues == QueuesAfter(old(chats.Queues), chatID, tries)
      ensures pool.Rest(chatID) == old(pool.Rest(chatID))
    {
      handed := handed[chatID := HandedTo(chatID) + [song]];
      tries := Rotate(chatID, song, at);
      err := if tries == [] then Some(NoClients) else tries[|tries| - 1].err;
    }

    /** The loop of PlayMedia. */
    method Rotate(chatID: int, song: Track, at: nat -> Attempt) returns (tries: seq<Try>)
      requires Valid()
      modifies Parts(), chats.Footprint(chatID)
      ensures Valid() && chats.Footprint(chatID) <= old(chats.Footprint(chatID))
      ensures if pool.Count == 0 then tries == [] else Rotation(tries, pool.Count)
      ensures CameTo(chatID, song, at, tries, old(chats.Queues), old(binding.calls), old(pool.db.Assigned(chatID)))
      ensures pool.Rest(chatID) == old(pool.Rest(chatID))
    {
      var totalClients := pool.Len();
      tries := [];
      ghost var queues, calls, index, rest := chats.Queues, binding.calls, pool.db.Assigned(chatID), pool.Rest(chatID);
      NothingYet(chatID, song, at);
      for i := 0 to totalClients
        invariant |tries| == i && Valid() && chats.Footprint(chatID) <= old(chats.Footprint(chatID))
        invariant AllRotate(tries) && (i > 0 && i == totalClients ==> Rotation(tries, i))
        invariant CameTo(chatID, song, at, tries, queues, calls, index) && pool.Rest(chatID) == rest
      {
        var again;
        tries, again := OneMore(chatID, song, at, tries, queues, calls, index);
        if !again {
          return;
        }
      }
    }

    /** The whole of it on the heap: a track that plays, from a chat whose queue is empty afterwards. */
    method PlaysUnqueued(chatID: int, song: Track, at: nat -> Attempt, k: nat) returns (err: Option<Error>)
      requires Valid() && 0 < k < pool.Count && FloodsThenPlays(chatID, at, k)
      modifies this`handed, Parts(), chats.Footprint(chatID)
      ensures Valid() && err == None && chats.QueueOf(chatID) == []
    {
      var tries;
      err, tries := PlayMedia(chatID, song, at);
      RotationCanEndWell(chatID, at, tries, pool.Count, k, old(chats.Queues));
    }

    /**
      What PlayMedia, answered by `at`, does with a song: the binding is asked to stream it, unless nobody could
      join, and `cleared` tells whether the queue was emptied. It is when the first stream fails.
    */
    ghost predicate Played(chatID: int, song: Track, at: nat -> Attempt, cleared: bool, before: seq<BindingCall>)
      reads pool, binding
    {
      if pool.Count == 0 then !cleared && binding.calls == before
      else ReachesStream(chatID, at(0)) ==>
        cleared == at(0).stream.Failed? && Heard(chatID, song, at(0).stream, before, binding.calls)
    }

    /** PlayMedia for callers that only look at the error; `cleared` tells whether the chat was emptied. */
    method Hand(chatID: int, song: Track, at: nat -> Attempt) returns (err: Option<Error>, cleared: bool)
      requires Valid()
      modifies this`handed, Parts(), chats.Footprint(chatID)
      ensures Valid() && chats.Footprint(chatID) <= old(chats.Footprint(chatID))
      ensures handed == old(handed)[chatID := old(HandedTo(chatID)) + [song]]
      ensures chats.Queues == Without(old(chats.Queues), chatID, cleared)
      ensures pool.Rest(chatID) == old(pool.Rest(chatID))
      ensures Played(chatID, song, at, cleared, old(binding.calls))
      ensures pool.Count == 0 ==> err.Some?
      ensures err.Some? && pool.Count > 0 ==> cleared
      ensures pool.Count > 0 && ReachesAll(chatID, at) ==> err == FinalError(at, 0, pool.Count)
    {
      var tries;
      err, tries := PlayMedia(chatID, song, at);
      cleared := |tries| > 0 && tries[0].err.Some?;
      if pool.Count > 0 && ReachesStream(chatID, at(0)) {
        RotationIsHeard(chatID, song, at(0), tries, pool.Count, old(binding.calls));
      }
      if pool.Count > 0 && ReachesAll(chatID, at) {
        RotationEndsSo(chatID, at, tries, pool.Count, 0);
      }
    }

    /** The head's counter goes down by one and the head is to be played again. */
    method RepeatHead(chatID: int, ghost s: S.Chat<Track>) returns (song: Track)
      requires Shows(chatID, s) && s.queue != [] && s.loop[s.queue[0]] > 0
      modifies s.queue[0]
      ensures song == s.queue[0] && Shows(chatID, S.Repeated(s))
    {
      var loop := chats.GetLoopCount(chatID);
      var _ := chats.SetLoopCount(chatID, loop - 1);
      song := chats.GetPlayingTrack(chatID);
    }

    /** The head leaves the queue. */
    method Advance(chatID: int, ghost s: S.Chat<Track>)
      requires Shows(chatID, s)
      modifies chats, chats.Footprint(chatID)
      ensures OtherChatsKept(chatID)
      ensures chats.Footprint(chatID) <= old(chats.Footprint(chatID))
      ensures Shows(chatID, S.Advanced(s))
    {
      var _ := chats.RemoveCurrentSong(chatID);
    }

    /** Stop: with an assistant to stop, the chat is cleared and the binding told; its answer does not matter. */
    method Stop(chatID: int, dbf: DbFaults) returns (found: bool, client: int)
      requires Valid()
      modifies this`stops, chats, binding, chats.Footprint(chatID), pool.db, pool.db.assistantCache, pool.db.assistantCache.clock
      ensures Valid() && OtherChatsKept(chatID)
      ensures stops == old(stops) + 1 && found == (pool.Count > 0)
      ensures found ==> 0 <= client < pool.Count
      ensures found && dbf.find && 0 <= old(pool.db.Assigned(chatID)) < pool.Count ==> client == old(pool.db.Assigned(chatID))
      ensures binding.calls == if found then old(binding.calls) + [StopCall(chatID, client)] else old(binding.calls)
      ensures chats.Queues == Without(old(chats.Queues), chatID, found)
      ensures chats.Footprint(chatID) <= old(chats.Footprint(chatID))
    {
      stops := stops + 1;
      found, client := FindToStop(chatID, dbf);
      if found {
        HangUp(chatID, client);
      }
    }

    /** GetGroupAssistant, seen from here. */
    method FindToStop(chatID: int, dbf: DbFaults) returns (found: bool, client: int)
      requires Valid()
      modifies pool.db, pool.db.assistantCache, pool.db.assistantCache.clock
      ensures Valid() && pool.Rest(chatID) == old(pool.Rest(chatID))
      ensures chats.Footprint(chatID) == old(chats.Footprint(chatID)) && chats.Queues == old(chats.Queues)
      ensures found == (pool.Count > 0) && (found ==> 0 <= client < pool.Count)
      ensures found && dbf.find && 0 <= old(pool.db.Assigned(chatID)) < pool.Count ==> client == old(pool.db.Assigned(chatID))
    {
      var call := pool.GetGroupAssistant(chatID, dbf);
      found, client := call.Ok?, if call.Ok? then call.value else -1;
    }

    /** The chat is cleared, and then the binding told to stop. */
    method HangUp(chatID: int, client: int)
      requires Valid()
      modifies chats, binding, chats.Footprint(chatID)
      ensures Valid() && chats.Queues == old(chats.Queues) - {chatID} && chats.Others(chatID) == old(chats.Others(chatID))
      ensures binding.calls == old(binding.calls) + [StopCall(chatID, client)]
      ensures chats.Footprint(chatID) <= old(chats.Footprint(chatID))
    {
      Clear(chatID);
      binding.Call(StopCall(chatID, client));
      assert chats.Queues - {chatID} == old(chats.Queues) - {chatID};
    }

    /** handleNoSong: stop the call, which clears the chat if an assistant is found. */
    method HandleNoSong(chatID: int, ghost s: S.Chat<Track>)
      requires Shows(chatID, s) && s.queue == []
      modifies this`stops, chats, binding, chats.Footprint(chatID), pool.db, pool.db.assistantCache, pool.db.assistantCache.clock
      ensures OtherChatsKept(chatID)
      ensures chats.Footprint(chatID) <= old(chats.Footprint(chatID))
      ensures Shows(chatID, s.(stops := s.stops + 1))
      ensures StoppedIn(chatID, pool.Count, old(binding.calls), binding.calls)
    {
      var dbf: DbFaults := *;
      var _, client := Stop(chatID, dbf);
      assert pool.Count > 0 ==> binding.calls[|old(binding.calls)|] == StopCall(chatID, client);
    }

    /** The binding was told to stop this chat's call, by some client, if there are clients. */
    ghost static predicate StoppedIn(chatID: int, n: nat, before: seq<BindingCall>, after: seq<BindingCall>) {
      if n == 0 then after == before
      else |after| == |before| + 1 && before <= after && after[|before|].StopCall? && after[|before|].chatID == chatID
    }

    /** downloadAndPrepareSong: the state becomes S.Prepared, and it succeeds iff the song then has a file. */
    method DownloadAndPrepare(chatID: int, song: Track, ghost s: S.Chat<Track>) returns (ok: bool)
      requires Shows(chatID, s) && song in s.loop
      modifies song`FilePath, this`attempts
      ensures Shows(chatID, S.Prepared(env, s, song)) && ok == (S.Prepared(env, s, song).file[song] != "")
    {
      var n := attempts;
      attempts := n + 1;
      if song.FilePath == "" {
        match env.download(n)
        case None =>
        case Some(dlPath) => song.FilePath := dlPath;
      }
      ok := song.FilePath != "";
    }

    /** The same, as this chat and the others see it. */
    method HandInChat(chatID: int, song: Track, at: nat -> Attempt, ghost ts: set<Track>) returns (err: Option<Error>, cleared: bool)
      requires Valid()
      modifies this`handed, Parts(), chats.Footprint(chatID)
      ensures Valid() && OtherChatsKept(chatID)
      ensures chats.Footprint(chatID) <= old(chats.Footprint(chatID))
      ensures chats.QueueOf(chatID) == if cleared then [] else old(chats.QueueOf(chatID))
      ensures HandedTo(chatID) == old(HandedTo(chatID)) + [song]
      ensures Played(chatID, song, at, cleared, old(binding.calls)) && unchanged(ts)
      ensures pool.Count == 0 ==> err.Some?
      ensures pool.Count > 0 && ReachesAll(chatID, at) ==> err == FinalError(at, 0, pool.Count)
    {
      err, cleared := Hand(chatID, song, at);
      assert chats.Queues - {chatID} == old(chats.Queues) - {chatID};
      SameElsewhere(old(handed), chatID, handed[chatID]);
    }

    /** PlayMedia touches no track, so only the queue and the log may differ afterwards. */
    method HandOver(chatID: int, song: Track, ghost s: S.Chat<Track>) returns (err: Option<Error>, cleared: bool)
      requires Shows(chatID, s) && s.attempts > 0
      modifies this`handed, Parts(), chats.Footprint(chatID)
      ensures OtherChatsKept(chatID)
      ensures chats.Footprint(chatID) <= old(chats.Footprint(chatID))
      ensures Shows(chatID, s.(played := s.played + [song], queue := if cleared then [] else s.queue))
      ensures Played(chatID, song, media(s.attempts - 1), cleared, old(binding.calls))
    {
      var at := media(attempts - 1);
      err, cleared := HandInChat(chatID, song, at, s.loop.Keys);
      assert TracksShow(s.loop, s.file);
    }

    /** The end of playSong: hand the song to PlayMedia. */
    method Start(chatID: int, song: Track, ghost s: S.Chat<Track>) returns (cleared: bool)
      requires Shows(chatID, s) && song in s.loop && s.attempts > 0
      modifies this`handed, song`Duration, Parts(), chats.Footprint(chatID)
      ensures OtherChatsKept(chatID)
      ensures chats.Footprint(chatID) <= old(chats.Footprint(chatID))
      ensures Shows(chatID, s.(played := s.played + [song], queue := if cleared then [] else s.queue))
      ensures Played(chatID, song, media(s.attempts - 1), cleared, old(binding.calls))
      ensures old(song.Duration) != 0 ==> song.Duration == old(song.Duration)
    {
      var err;
      err, cleared := HandOver(chatID, song, s);
      if err.None? {
        Probe(chatID, song, s.(played := s.played + [song], queue := if cleared then [] else s.queue));
      }
    }

    /** GetMediaDuration, when the duration is not known; playback does not depend on it. */
    method Probe(chatID: int, song: Track, ghost s: S.Chat<Track>)
      requires Shows(chatID, s)
      modifies song`Duration
      ensures Shows(chatID, s)
      ensures old(song.Duration) != 0 ==> song.Duration == old(song.Duration)
    {
      if song.Duration == 0 {
        var probed: int := *;
        song.Duration := probed;
      }
    }

    /**
      Since `s`, when the binding had been called so often, PlayMedia has been called once, in the last attempt,
      and it went as that attempt's answers say; or not at all, and nothing but a Stop has called the binding.
    */
    ghost predicate Grown(chatID: int, s: S.Chat<Track>, cleared: bool, before: seq<BindingCall>)
      reads this, pool, binding
    {
      var now := HandedTo(chatID);
      if now == s.played then
        !cleared && if stops == s.stops then binding.calls == before else StoppedIn(chatID, pool.Count, before, binding.calls)
      else
        && attempts > s.attempts && |now| == |s.played| + 1 && s.played <= now
        && Played(chatID, now[|s.played|], media(attempts - 1), cleared, before)
    }

    /**
      PlayNext: what it does to the chat is PlaybackSpec.PlayNext, and it terminates because every
      attempt uses up a loop count or a queue position.
    */
    method PlayNext(chatID: int, ghost s: S.Chat<Track>) returns (cleared: bool)
      requires Shows(chatID, s)
      modifies this, Parts(), chats.Footprint(chatID), s.loop.Keys
      ensures OtherChatsKept(chatID)
      ensures chats.Footprint(chatID) <= old(chats.Footprint(chatID))
      ensures Shows(chatID, S.PlayNext(env, s, cleared))
      ensures Grown(chatID, s, cleared, old(binding.calls))
      decreases S.Measure(s), 2
    {
      var loop := chats.GetLoopCount(chatID);
      if loop > 0 {
        cleared := PlayAgain(chatID, s);
      } else {
        cleared := PlayUpcoming(chatID, s);
      }
    }

    /** The first half of PlayNext: the head once more. */
    method PlayAgain(chatID: int, ghost s: S.Chat<Track>) returns (cleared: bool)
      requires Shows(chatID, s) && s.queue != [] && s.loop[s.queue[0]] > 0
      modifies this, Parts(), chats.Footprint(chatID), s.loop.Keys
      ensures OtherChatsKept(chatID)
      ensures chats.Footprint(chatID) <= old(chats.Footprint(chatID))
      ensures Shows(chatID, S.PlayNext(env, s, cleared))
      ensures Grown(chatID, s, cleared, old(binding.calls))
      decreases S.Measure(s), 0
    {
      var currentSong := RepeatHead(chatID, s);
      cleared := PlaySong(chatID, currentSong, S.Repeated(s));
    }

    /** The second half of PlayNext: on to the track behind the head, or stop. */
    method PlayUpcoming(chatID: int, ghost s: S.Chat<Track>) returns (cleared: bool)
      requires Shows(chatID, s) && (s.queue != [] ==> s.loop[s.queue[0]] <= 0)
      modifies this, Parts(), chats.Footprint(chatID), s.loop.Keys
      ensures OtherChatsKept(chatID)
      ensures chats.Footprint(chatID) <= old(chats.Footprint(chatID))
      ensures Shows(chatID, S.PlayNext(env, s, cleared))
      ensures Grown(chatID, s, cleared, old(binding.calls))
      decreases S.Measure(s), 1
    {
      var nextSong := chats.GetUpcomingTrack(chatID);
      if nextSong != null {
        cleared := PlayNextSong(chatID, nextSong, s);
      } else {
        PlayNoMore(chatID, s);
        cleared := false;
      }
    }

    method PlayNextSong(chatID: int, nextSong: Track, ghost s: S.Chat<Track>) returns (cleared: bool)
      requires Shows(chatID, s) && |s.queue| >= 2 && s.queue[1] == nextSong && s.loop[s.queue[0]] <= 0
      modifies this, Parts(), chats.Footprint(chatID), s.loop.Keys
      ensures OtherChatsKept(chatID)
      ensures chats.Footprint(chatID) <= old(chats.Footprint(chatID))
      ensures Shows(chatID, S.PlayNext(env, s, cleared))
      ensures Grown(chatID, s, cleared, old(binding.calls))
      decreases S.Measure(s), 0
    {
      ghost var advanced := S.Advanced(s);
      Advance(chatID, s);
      cleared := PlaySong(chatID, nextSong, advanced);
      S.NextPlays(env, s, cleared);
    }

    method PlayNoMore(chatID: int, ghost s: S.Chat<Track>)
      requires Shows(chatID, s) && |s.queue| < 2 && (s.queue != [] ==> s.loop[s.queue[0]] <= 0)
      modifies this`stops, chats, binding, chats.Footprint(chatID), pool.db, pool.db.assistantCache, pool.db.assistantCache.clock
      ensures OtherChatsKept(chatID)
      ensures chats.Footprint(chatID) <= old(chats.Footprint(chatID))
      ensures Shows(chatID, S.PlayNext(env, s, false)) && HandedTo(chatID) == s.played
      ensures StoppedIn(chatID, pool.Count, old(binding.calls), binding.calls)
    {
      ghost var advanced := S.Advanced(s);
      S.NoMoreStops(env, s);
      Advance(chatID, s);
      HandleNoSong(chatID, advanced);
    }

    /** playSong: PlaybackSpec.PlaySong. */
    method PlaySong(chatID: int, song: Track, ghost s: S.Chat<Track>) returns (cleared: bool)
      requires Shows(chatID, s) && song in s.loop
      modifies this, Parts(), chats.Footprint(chatID), s.loop.Keys
      ensures OtherChatsKept(chatID)
      ensures chats.Footprint(chatID) <= old(chats.Footprint(chatID))
      ensures Shows(chatID, S.PlaySong(env, s, song, cleared))
      ensures Grown(chatID, s, cleared, old(binding.calls))
      decreases S.Measure(s), 4
    {
      if !env.send(attempts) {
        attempts := attempts + 1;
        return false;
      }
      var ready := DownloadAndPrepare(chatID, song, s);
      cleared := PlayPrepared(chatID, song, ready, s);
    }

    /** The end of playSong, after the download. */
    method PlayPrepared(chatID: int, song: Track, ready: bool, ghost s: S.Chat<Track>) returns (cleared: bool)
      requires s.Known() && song in s.loop && song in s.file && env.send(s.attempts)
      requires Shows(chatID, S.Prepared(env, s, song)) && ready == (S.Prepared(env, s, song).file[song] != "")
      modifies this, Parts(), chats.Footprint(chatID), s.loop.Keys
      ensures OtherChatsKept(chatID)
      ensures chats.Footprint(chatID) <= old(chats.Footprint(chatID))
      ensures Shows(chatID, S.PlaySong(env, s, song, cleared))
      ensures Grown(chatID, s, cleared, old(binding.calls))
      decreases S.Measure(s), 3
    {
      if ready {
        cleared := Start(chatID, song, S.Prepared(env, s, song));
      } else {
        cleared := PlayNext(chatID, S.Prepared(env, s, song));
      }
    }

    /** The stream-end callback: a video stream's end is ignored, an audio stream's end is one PlayNext. */
    method OnStreamEnd(chatID: int, videoStream: bool, ghost s: S.Chat<Track>) returns (cleared: bool)
      requires Shows(chatID, s)
      modifies this, Parts(), chats.Footprint(chatID), s.loop.Keys
      ensures OtherChatsKept(chatID)
      ensures chats.Footprint(chatID) <= old(chats.Footprint(chatID))
      ensures Shows(chatID, if videoStream then s else S.PlayNext(env, s, cleared))
      ensures Grown(chatID, s, cleared, old(binding.calls))
    {
      cleared := false;
      if !videoStream {
        cleared := PlayNext(chatID, s);
      }
    }

    /** The songs that the binding was asked to stream in this chat, in order. */
    static function Asked(chatID: int, calls: seq<BindingCall>): seq<Track> {
      if calls == [] then []
      else
        var n := |calls| - 1;
        Asked(chatID, calls[..n]) + if calls[n].PlayCall? && calls[n].chatID == chatID then [calls[n].song] else []
    }

    /** The binding has been asked to stream just what PlayMedia was given. */
    ghost predicate InStep(chatID: int)
      reads this, binding
    {
      Asked(chatID, binding.calls) == HandedTo(chatID)
    }

    /** One call of an event at most, so what the binding is asked for grows as what PlayMedia is given. */
    lemma AskedAsHanded(chatID: int, s: S.Chat<Track>, before: seq<BindingCall>)
      requires AllStart(chatID) && Grown(chatID, s, false, before)
      requires Asked(chatID, before) == s.played
      ensures InStep(chatID)
    {
      var calls := binding.calls;
      if |calls| > |before| {
        assert calls[..|calls| - 1] == before;
      }
    }

    /** There are clients, and in every attempt the first stream starts. */
    ghost predicate AllStart(chatID: int)
      reads pool
    {
      pool.Count > 0 && forall n: nat :: ReachesStream(chatID, media(n)(0)) && media(n)(0).stream.Got?
    }

    /** One end of an audio stream. */
    method EndOfAudio(chatID: int, ghost s: S.Chat<Track>) returns (cleared: bool)
      requires Shows(chatID, s)
      modifies this, Parts(), chats.Footprint(chatID), s.loop.Keys
      ensures OtherChatsKept(chatID)
      ensures chats.Footprint(chatID) <= old(chats.Footprint(chatID))
      ensures Shows(chatID, S.PlayNext(env, s, cleared))
      ensures AllStart(chatID) ==> !cleared
      ensures AllStart(chatID) && old(InStep(chatID)) ==> InStep(chatID)
    {
      cleared := OnStreamEnd(chatID, false, s);
      if AllStart(chatID) && old(InStep(chatID)) {
        AskedAsHanded(chatID, s, old(binding.calls));
      }
    }

    /**
      The binding delivers up to `k` ends of audio streams, as long as PlayMedia leaves the queue alone
      (`cleared` says it has not). When it always does, as when all streams start, the chat has gone through
      PlaybackSpec.Events. When all streams start, the binding is asked to stream just what PlayMedia is given.
    */
    method Deliver(chatID: int, k: nat, ghost s: S.Chat<Track>) returns (cleared: bool)
      requires Shows(chatID, s)
      modifies this, Parts(), chats.Footprint(chatID), s.loop.Keys
      ensures OtherChatsKept(chatID)
      ensures chats.Footprint(chatID) <= old(chats.Footprint(chatID))
      ensures AllStart(chatID) ==> !cleared
      ensures AllStart(chatID) && old(InStep(chatID)) ==> InStep(chatID)
      ensures !cleared ==> Shows(chatID, S.Events(env, s, k))
      decreases k
    {
      cleared := false;
      if k > 0 {
        cleared := EndOfAudio(chatID, s);
        if !cleared {
          cleared := Deliver(chatID, k - 1, S.PlayNext(env, s, false));
        }
      }
    }

    /** So the tracks handed to PlayMedia are the first k of the plan. */
    method DeliverPlan(chatID: int, k: nat, ghost s: S.Chat<Track>) returns (cleared: bool)
      requires Shows(chatID, s) && S.SendsSucceed(env) && S.Distinct(s.queue) && k <= |S.Plan(env, s)|
      modifies this, Parts(), chats.Footprint(chatID), s.loop.Keys
      ensures AllStart(chatID) ==> !cleared
      ensures AllStart(chatID) && old(InStep(chatID)) ==> InStep(chatID)
      ensures !cleared ==> HandedTo(chatID) == s.played + S.Plan(env, s)[..k]
    {
      cleared := Deliver(chatID, k, s);
      S.PlaybackTrace(env, s, k);
    }
  }
}

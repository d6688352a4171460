/**
  The per-chat track queues of src/core/cache/chat_cache.go.

  A Go slice is a window on a backing array. The queue operations advance the window, shift elements
  inside it and write nil over the slots they give up; `append` writes in place while there is
  capacity and moves to a fresh array otherwise. `ChatCacher` keeps exactly those windows, and every
  method is proved against `Queues`, the plain map from chat to sequence of tracks.
*/
module ChatQueue {
  import opened Common

  /** utils.CachedTrack: tracks are shared by pointer, so `Loop` and `FilePath` live in the heap. */
  class Track {
    const TrackID: string
    const Name: string
    var Loop: int
    var FilePath: string
    var Duration: int

    constructor (trackID: string, name: string, filePath: string, duration: int)
      ensures TrackID == trackID && Name == name && FilePath == filePath
      ensures Duration == duration && Loop == 0
    {
      TrackID, Name := trackID, name;
      Loop, FilePath, Duration := 0, filePath, duration;
    }
  }

  /** A Go slice of track pointers; its capacity runs to the end of the backing array. */
  datatype Slice = Slice(arr: array<Track?>, off: nat, len: nat)
  {
    /**
      The window holds exactly the tracks `q`, none of them nil, and every slot of the backing array
      outside the window is nil.
    */
    ghost predicate Holds(q: seq<Track>)
      reads arr
    {
      && |q| == len && off + len <= arr.Length
      && forall i | 0 <= i < arr.Length ::
           arr[i] == if off <= i < off + len then q[i - off] else null
    }

    /** The window shows the tracks `q`, whatever the rest of the backing array holds. */
    ghost predicate Shows(q: seq<Track>)
      reads arr
    {
      |q| == len && off + len <= arr.Length && forall i | 0 <= i < len :: arr[off + i] == q[i]
    }
  }

  /** Go's built-in `append`: in place while the capacity lasts, else into a fresh, larger array. */
  method Append(s: Slice, ghost q: seq<Track>, xs: seq<Track>) returns (r: Slice)
    requires s.Holds(q)
    modifies s.arr
    ensures r.Holds(q + xs)
    ensures if s.off + s.len + |xs| <= s.arr.Length then r.arr == s.arr else fresh(r.arr) && unchanged(s.arr)
  {
    var end := s.off + s.len;
    if end + |xs| <= s.arr.Length {
      var a := s.arr;
      forall i | end <= i < end + |xs| {
        a[i] := xs[i - end];
      }
      r := Slice(s.arr, s.off, s.len + |xs|);
    } else {
      var n: nat :| s.len + |xs| <= n;
      var a := new Track?[n](i requires 0 <= i reads s.arr =>
        if i < s.len && s.off + i < s.arr.Length then s.arr[s.off + i]
        else if s.len <= i < s.len + |xs| then xs[i - s.len] else null);
      r := Slice(a, 0, s.len + |xs|);
    }
  }

  /** The tail after `index` moves down one slot, by `copy`, and the slot given up becomes nil. */
  method ShiftOut(s: Slice, ghost q: seq<Track>, index: nat) returns (r: Slice)
    requires s.Holds(q) && index < s.len
    modifies s.arr
    ensures r.Holds(q[..index] + q[index + 1..]) && r.arr == s.arr
  {
    var a, last := s.arr, s.off + s.len - 1;
    forall i | s.off + index <= i < last {
      a[i] := a[i + 1];
    }
    a[last] := null;
    r := Slice(a, s.off, s.len - 1);
  }

  lemma SameElsewhere<T>(m: map<int, T>, k: int, v: T)
    ensures m[k := v] - {k} == m - {k}
  {
  }

  class ChatCacher {
    // The source maps a chat to a *ChatData record whose only field is the queue; the record never
    // leaves the cacher, so the window is stored directly.
    var chatCache: map<int, Slice>

    // The abstract value: chat |-> sequence of queued tracks.
    ghost var Queues: map<int, seq<Track>>

    // The chat each backing array in use belongs to, so that no two chats share one.
    ghost var Owner: map<array<Track?>, int>

    ghost function Arrays(): set<object>
      reads this
    {
      set k | k in chatCache :: chatCache[k].arr
    }

    /** What one chat owns: its backing array. */
    ghost function Footprint(chatID: int): set<object>
      reads this
    {
      if chatID in chatCache then {chatCache[chatID].arr} else {}
    }

    ghost predicate Valid()
      reads this, Arrays()
    {
      && Queues.Keys == chatCache.Keys
      && forall k | k in chatCache ::
           chatCache[k].Holds(Queues[k]) && chatCache[k].arr in Owner && Owner[chatCache[k].arr] == k
    }

    ghost function QueueOf(chatID: int): seq<Track>
      reads this
    {
      if chatID in Queues then Queues[chatID] else []
    }

    /** The queues of all the other chats. */
    ghost function Others(chatID: int): map<int, seq<Track>>
      reads this
    {
      Queues - {chatID}
    }

    constructor ()
      ensures Valid() && Queues == map[] && Arrays() == {}
    {
      chatCache, Queues, Owner := map[], map[], map[];
    }

    /** The window a chat's operations work on; an unknown chat starts from an empty one. */
    method GetOrCreate(chatID: int) returns (q: Slice)
      requires Valid()
      modifies this
      ensures Valid() && Queues == old(Queues)[chatID := old(QueueOf(chatID))]
      ensures chatCache == old(chatCache)[chatID := q]
      ensures if chatID in old(chatCache) then q == old(chatCache)[chatID] else fresh(q.arr)
    {
      if chatID in chatCache {
        q := chatCache[chatID];
      } else {
        var a := new Track?[0];
        q := Slice(a, 0, 0);
        chatCache, Queues, Owner := chatCache[chatID := q], Queues[chatID := []], Owner[a := chatID];
      }
    }

    /** What AddSong and AddSongs share: append to the window of a known chat and store the new window. */
    method AppendTo(chatID: int, xs: seq<Track>)
      requires Valid() && chatID in chatCache
      modifies this, Footprint(chatID)
      ensures Valid() && chatID in chatCache && chatCache == old(chatCache)[chatID := chatCache[chatID]]
      ensures fresh(Footprint(chatID) - old(Footprint(chatID)))
      ensures Queues == old(Queues)[chatID := old(Queues)[chatID] + xs]
    {
      var q := Append(chatCache[chatID], Queues[chatID], xs);
      chatCache := chatCache[chatID := q];
      Queues, Owner := Queues[chatID := Queues[chatID] + xs], Owner[q.arr := chatID];
    }

    /** AddSong: the track goes to the end of this chat's queue; nothing else changes. */
    method AddSong(chatID: int, song: Track) returns (n: nat)
      requires Valid()
      modifies this, Footprint(chatID)
      ensures Valid() && chatID in chatCache && chatCache == old(chatCache)[chatID := chatCache[chatID]]
      ensures fresh(Footprint(chatID) - old(Footprint(chatID)))
      ensures Others(chatID) == old(Others(chatID))
      ensures Queues == old(Queues)[chatID := old(QueueOf(chatID)) + [song]]
      ensures n == |QueueOf(chatID)|
    {
      var _ := GetOrCreate(chatID);
      AppendTo(chatID, [song]);
      n := chatCache[chatID].len;
      SameElsewhere(old(Queues), chatID, Queues[chatID]);
    }

    /**
      AddSongs: the caller's tracks follow this chat's queue. Of the caller's array only the window is read, and
      nothing is written unless it already was this chat's own.
    */
    method AddSongs(chatID: int, songs: Slice, ghost tracks: seq<Track>) returns (n: nat)
      requires Valid() && songs.Shows(tracks)
      modifies this, Footprint(chatID)
      ensures Valid() && chatID in chatCache && chatCache == old(chatCache)[chatID := chatCache[chatID]]
      ensures fresh(Footprint(chatID) - old(Footprint(chatID)))
      ensures Others(chatID) == old(Others(chatID))
      ensures songs.arr !in old(Arrays()) ==> songs.arr !in Arrays() && unchanged(songs.arr)
      ensures Queues == old(Queues)[chatID := old(QueueOf(chatID)) + tracks]
      ensures n == |QueueOf(chatID)|
    {
      var xs := Tracks(songs, tracks);
      var _ := GetOrCreate(chatID);
      AppendTo(chatID, xs);
      n := chatCache[chatID].len;
      SameElsewhere(old(Queues), chatID, Queues[chatID]);
    }

    /** The elements of a slice. */
    static method Tracks(songs: Slice, ghost tracks: seq<Track>) returns (xs: seq<Track>)
      requires songs.Shows(tracks)
      ensures xs == tracks
    {
      assert songs.arr[songs.off..songs.off + songs.len] == tracks;
      xs := songs.arr[songs.off..songs.off + songs.len];
    }

    /** A run of commands on one chat, as a caller makes them: RunQueue says what is left and what was popped. */
    method Execute(chatID: int, cmds: seq<Command<Track>>) returns (popped: seq<Track>)
      requires Valid()
      modifies this, Footprint(chatID)
      ensures Valid() && fresh(Footprint(chatID) - old(Footprint(chatID)))
      ensures Others(chatID) == old(Others(chatID))
      ensures (QueueOf(chatID), popped) == RunQueue(old(QueueOf(chatID)), cmds)
      decreases |cmds|
    {
      if cmds == [] {
        return [];
      }
      var first := ExecuteOne(chatID, cmds[0]);
      popped := Execute(chatID, cmds[1..]);
      popped := first + popped;
    }

    method ExecuteOne(chatID: int, cmd: Command<Track>) returns (popped: seq<Track>)
      requires Valid()
      modifies this, Footprint(chatID)
      ensures Valid() && fresh(Footprint(chatID) - old(Footprint(chatID)))
      ensures Others(chatID) == old(Others(chatID))
      ensures (QueueOf(chatID), popped) == Executed(old(QueueOf(chatID)), cmd)
    {
      match cmd
      case Push(t) =>
        var _ := AddSong(chatID, t);
        popped := [];
      case PushAll(ts) =>
        var a := new Track?[|ts|](i requires 0 <= i < |ts| => ts[i]);
        var _ := AddSongs(chatID, Slice(a, 0, |ts|), ts);
        popped := [];
      case Pop =>
        var t := RemoveCurrentSong(chatID);
        popped := if t == null then [] else [t];
    }

    method GetPlayingTrack(chatID: int) returns (t: Track?)
      requires Valid()
      ensures t == if QueueOf(chatID) == [] then null else QueueOf(chatID)[0]
    {
      if chatID !in chatCache || chatCache[chatID].len == 0 {
        return null;
      }
      t := chatCache[chatID].arr[chatCache[chatID].off];
    }

    method GetUpcomingTrack(chatID: int) returns (t: Track?)
      requires Valid()
      ensures t == if |QueueOf(chatID)| < 2 then null else QueueOf(chatID)[1]
    {
      if chatID !in chatCache || chatCache[chatID].len < 2 {
        return null;
      }
      t := chatCache[chatID].arr[chatCache[chatID].off + 1];
    }

    /** Pops the head: its slot is niled before the window moves past it. */
    method RemoveCurrentSong(chatID: int) returns (removed: Track?)
      requires Valid()
      modifies this, Footprint(chatID)
      ensures Valid() && Arrays() <= old(Arrays()) && Footprint(chatID) <= old(Footprint(chatID))
      ensures Others(chatID) == old(Others(chatID))
      ensures removed == if old(QueueOf(chatID)) == [] then null else old(QueueOf(chatID))[0]
      ensures Queues == if old(QueueOf(chatID)) == [] then old(Queues)
                        else old(Queues)[chatID := old(QueueOf(chatID))[1..]]
    {
      if chatID !in chatCache || chatCache[chatID].len == 0 {
        return null;
      }
      var q := chatCache[chatID];
      var a := q.arr;
      removed := a[q.off];
      a[q.off] := null;
      chatCache := chatCache[chatID := Slice(a, q.off + 1, q.len - 1)];
      Queues := Queues[chatID := Queues[chatID][1..]];
    }

    /** Deletes position `index`: the tail moves down one slot and the last slot becomes nil. */
    method RemoveTrack(chatID: int, index: int) returns (ok: bool)
      requires Valid()
      modifies this, Footprint(chatID)
      ensures Valid() && Arrays() <= old(Arrays()) && Footprint(chatID) <= old(Footprint(chatID))
      ensures Others(chatID) == old(Others(chatID))
      ensures ok == (0 <= index < |old(QueueOf(chatID))|)
      ensures ok ==> Queues == old(Queues)[chatID := old(QueueOf(chatID))[..index] + old(QueueOf(chatID))[index + 1..]]
      ensures !ok ==> Queues == old(Queues)
    {
      if chatID !in chatCache || index < 0 || index >= chatCache[chatID].len {
        return false;
      }
      var q := ShiftOut(chatCache[chatID], Queues[chatID], index);
      chatCache := chatCache[chatID := q];
      Queues := Queues[chatID := Queues[chatID][..index] + Queues[chatID][index + 1..]];
      ok := true;
    }

    method IsActive(chatID: int) returns (active: bool)
      requires Valid()
      ensures active <==> QueueOf(chatID) != []
    {
      active := chatID in chatCache && chatCache[chatID].len > 0;
    }

    /** Forgets the chat, after niling every slot, so that the old array retains no track. */
    method ClearChat(chatID: int)
      requires Valid()
      modifies this, Footprint(chatID)
      ensures Valid() && Arrays() <= old(Arrays()) && Footprint(chatID) <= old(Footprint(chatID))
      ensures Others(chatID) == old(Others(chatID))
      ensures Queues == old(Queues) - {chatID} && QueueOf(chatID) == []
      ensures chatID in old(chatCache) ==>
                var a := old(chatCache)[chatID].arr; forall i | 0 <= i < a.Length :: a[i] == null
    {
      if chatID in chatCache {
        var q := chatCache[chatID];
        var a := q.arr;
        for i := 0 to q.len
          modifies a
          invariant forall j | 0 <= j < q.off + i || q.off + q.len <= j :: j < a.Length ==> a[j] == null
        {
          a[q.off + i] := null;
        }
        chatCache := chatCache - {chatID};
      }
      Queues := Queues - {chatID};
    }

    method GetQueueLength(chatID: int) returns (n: nat)
      requires Valid()
      ensures n == |QueueOf(chatID)|
    {
      n := if chatID in chatCache then chatCache[chatID].len else 0;
    }

    method GetLoopCount(chatID: int) returns (n: int)
      requires Valid()
      ensures n == if QueueOf(chatID) == [] then 0 else QueueOf(chatID)[0].Loop
    {
      if chatID !in chatCache || chatCache[chatID].len == 0 {
        return 0;
      }
      n := chatCache[chatID].arr[chatCache[chatID].off].Loop;
    }

    /** Sets the counter on the track at the head, through the shared pointer. */
    method SetLoopCount(chatID: int, loop: int) returns (ok: bool)
      requires Valid()
      modifies if QueueOf(chatID) == [] then {} else {QueueOf(chatID)[0]}
      ensures ok == (QueueOf(chatID) != [])
      ensures ok ==> QueueOf(chatID)[0].Loop == loop
      ensures forall t: Track :: t in QueueOf(chatID) ==>
                t.FilePath == old(t.FilePath) && (t != QueueOf(chatID)[0] ==> t.Loop == old(t.Loop))
      ensures Valid()
    {
      if chatID !in chatCache || chatCache[chatID].len == 0 {
        return false;
      }
      chatCache[chatID].arr[chatCache[chatID].off].Loop := loop;
      ok := true;
    }

    /** GetQueue: a snapshot in an array of its own; nil (an empty window) when nothing is queued. */
    method GetQueue(chatID: int) returns (r: Slice)
      requires Valid()
      ensures r.Holds(QueueOf(chatID)) && fresh(r.arr) && r.arr !in Arrays()
    {
      var empty := new Track?[0];
      r := Slice(empty, 0, 0);
      if chatID in chatCache && chatCache[chatID].len > 0 {
        var q := chatCache[chatID];
        var xs := Tracks(q, Queues[chatID]);
        r := Append(r, [], xs);
        assert [] + xs == QueueOf(chatID);
      }
    }

    /** Every chat with something queued, each once, whatever order the map is walked in. */
    method GetActiveChats() returns (active: seq<int>)
      requires Valid()
      ensures forall k :: k in active <==> QueueOf(k) != []
      ensures forall i, j | 0 <= i < j < |active| :: active[i] != active[j]
    {
      active := [];
      var rest := chatCache.Keys;
      while rest != {}
        invariant rest <= chatCache.Keys
        invariant forall k :: k in active <==> k !in rest && QueueOf(k) != []
        invariant forall i, j | 0 <= i < j < |active| :: active[i] != active[j]
        decreases rest
      {
        var k := PickAny(rest);
        if chatCache[k].len > 0 {
          active := active + [k];
        }
        rest := rest - {k};
      }
    }

    /** The first queued track with this ID, or nil when there is none. */
    method GetTrackIfExists(chatID: int, trackID: string) returns (t: Track?)
      requires Valid()
      ensures t == null ==> forall u | u in QueueOf(chatID) :: u.TrackID != trackID
      ensures t != null ==> exists i | 0 <= i < |QueueOf(chatID)| ::
                QueueOf(chatID)[i] == t && t.TrackID == trackID
                && forall j | 0 <= j < i :: QueueOf(chatID)[j].TrackID != trackID
    {
      if chatID !in chatCache {
        return null;
      }
      var q := chatCache[chatID];
      for i := 0 to q.len
        invariant forall j | 0 <= j < i :: Queues[chatID][j].TrackID != trackID
      {
        var u := q.arr[q.off + i];
        assert u == Queues[chatID][i];
        if u.TrackID == trackID {
          assert 0 <= i < |QueueOf(chatID)| && QueueOf(chatID)[i] == u;
          return u;
        }
      }
      t := null;
    }
  }

  // ----- what the queue operations amount to over a run -----

  /** One command on a single chat's queue, as the methods above act on `Queues`. */
  datatype Command<T> = Push(t: T) | PushAll(ts: seq<T>) | Pop

  function PushedBy<T>(cmd: Command<T>): seq<T> {
    match cmd case Push(t) => [t] case PushAll(ts) => ts case Pop => []
  }

  function Pushed<T>(cmds: seq<Command<T>>): seq<T> {
    if cmds == [] then [] else PushedBy(cmds[0]) + Pushed(cmds[1..])
  }

  /** The queue left and what was popped after one command. */
  function Executed<T>(q: seq<T>, cmd: Command<T>): (seq<T>, seq<T>) {
    match cmd
    case Push(t) => (q + [t], [])
    case PushAll(ts) => (q + ts, [])
    case Pop => if q == [] then (q, []) else (q[1..], [q[0]])
  }

  /** The queue left and the tracks popped, in order, after `cmds` from the queue `q`. */
  function RunQueue<T>(q: seq<T>, cmds: seq<Command<T>>): (r: (seq<T>, seq<T>))
    decreases |cmds|
  {
    if cmds == [] then (q, []) else
    var first := Executed(q, cmds[0]);
    var rest := RunQueue(first.0, cmds[1..]);
    (rest.0, first.1 + rest.1)
  }

  lemma OneIsFifo<T>(q: seq<T>, cmd: Command<T>)
    ensures Executed(q, cmd).1 + Executed(q, cmd).0 == q + PushedBy(cmd)
  {
  }

  /** FIFO: what was popped, followed by what is still queued, is what was there followed by what was pushed. */
  lemma {:induction false} QueueIsFifo<T>(q: seq<T>, cmds: seq<Command<T>>)
    ensures var (rest, popped) := RunQueue(q, cmds); popped + rest == q + Pushed(cmds)
    decreases |cmds|
  {
    if cmds != [] {
      var first := Executed(q, cmds[0]);
      var rest := RunQueue(first.0, cmds[1..]);
      QueueIsFifo(first.0, cmds[1..]);
      OneIsFifo(q, cmds[0]);
      assert first.1 + rest.1 + rest.0 == first.1 + (rest.1 + rest.0);
      assert first.1 + (first.0 + Pushed(cmds[1..])) == first.1 + first.0 + Pushed(cmds[1..]);
      assert q + PushedBy(cmds[0]) + Pushed(cmds[1..]) == q + Pushed(cmds);
    }
  }
}

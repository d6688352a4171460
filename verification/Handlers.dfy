/** The /play handlers of src/handlers/play.go, as far as they touch the queue and start playback. */
module Handlers {
  import opened Common
  import opened ChatQueue
  import opened Playback
  import opened Assistants
  import S = PlaybackSpec

  datatype MusicTrack = MusicTrack(Id: string, Title: string, Duration: int)

  datatype Outcome =
    | NoTracks | TooLong | TooLarge | Duplicate | Queued(length: nat)
    | DownloadFailed | PlayFailed | Playing

  /** The queue entry a search result becomes. */
  ghost predicate IsEntryFor(t: Track, m: MusicTrack)
    reads t
  {
    t.TrackID == m.Id && t.Name == m.Title && t.Duration == m.Duration
  }

  /** PlayMedia ends well when its attempts are answered by `at` and reach their streams. */
  predicate Succeeds(at: nat -> Attempt, clients: nat) {
    clients > 0 && FinalError(at, 0, clients).None?
  }

  /** What decides whether the only track of a chat plays, and whether it is still queued then. */
  ghost predicate PlaysAs(chatId: int, at: nat -> Attempt, clients: nat, ok: bool, queued: bool) {
    ReachesAll(chatId, at) ==> (ok <==> Succeeds(at, clients)) && (ok ==> (queued <==> at(0).stream.Got?))
  }

  /** RemoveCurrentSong, when nothing else is queued. */
  method Drop(calls: TelegramCalls, chatId: int)
    requires calls.Valid() && |calls.chats.QueueOf(chatId)| <= 1
    modifies calls.chats, calls.chats.Footprint(chatId)
    ensures calls.Valid() && calls.OtherChatsKept(chatId) && calls.chats.QueueOf(chatId) == []
    ensures calls.chats.Footprint(chatId) <= old(calls.chats.Footprint(chatId))
  {
    var _ := calls.chats.RemoveCurrentSong(chatId);
  }

  /** PlayMedia for the only track of a chat; after a failure the chat's queue is empty. */
  method PlayOrDrop(calls: TelegramCalls, chatId: int, track: Track, at: nat -> Attempt) returns (ok: bool)
    requires calls.Valid() && |calls.chats.QueueOf(chatId)| == 1
    modifies calls`handed, calls.Parts(), calls.chats.Footprint(chatId)
    ensures calls.Valid() && calls.OtherChatsKept(chatId)
    ensures calls.chats.Footprint(chatId) <= old(calls.chats.Footprint(chatId))
    ensures calls.chats.QueueOf(chatId) == [] || (ok && calls.chats.QueueOf(chatId) == old(calls.chats.QueueOf(chatId)))
    ensures PlaysAs(chatId, at, calls.pool.Count, ok, calls.chats.QueueOf(chatId) != [])
    ensures calls.HandedTo(chatId) == old(calls.HandedTo(chatId)) + [track]
  {
    ok := TryPlay(calls, chatId, track, at);
    if !ok {
      Drop(calls, chatId);
    }
  }

  /** PlayMedia, its error taken as a truth value. */
  method TryPlay(calls: TelegramCalls, chatId: int, track: Track, at: nat -> Attempt) returns (ok: bool)
    requires calls.Valid()
    modifies calls`handed, calls.Parts(), calls.chats.Footprint(chatId)
    ensures calls.Valid() && calls.OtherChatsKept(chatId)
    ensures calls.chats.Footprint(chatId) <= old(calls.chats.Footprint(chatId))
    ensures calls.chats.QueueOf(chatId) in {[], old(calls.chats.QueueOf(chatId))}
    ensures calls.HandedTo(chatId) == old(calls.HandedTo(chatId)) + [track]
    ensures ReachesAll(chatId, at) ==> (ok <==> Succeeds(at, calls.pool.Count))
    ensures ReachesAll(chatId, at) && ok ==>
              calls.chats.QueueOf(chatId) == if at(0).stream.Got? then old(calls.chats.QueueOf(chatId)) else []
  {
    var err, _ := calls.HandInChat(chatId, track, at, {});
    ok := err.None?;
  }

  /**
    The common end of handleSingleTrack and handleMedia: the track has been queued, and if it is alone it
    is downloaded (`probe`: and its duration looked up) and played; any failure takes it off again.
  */
  method StartIfFirst(calls: TelegramCalls, chatId: int, track: Track, qLen: nat, download: Option<string>, probe: bool,
                      at: nat -> Attempt) returns (r: Outcome)
    requires calls.Valid() && qLen == |calls.chats.QueueOf(chatId)| > 0
    requires calls.chats.QueueOf(chatId)[qLen - 1] == track
    modifies track`FilePath, track`Duration, calls`handed, calls.Parts(), calls.chats.Footprint(chatId)
    ensures calls.Valid() && calls.OtherChatsKept(chatId)
    ensures calls.chats.Footprint(chatId) <= old(calls.chats.Footprint(chatId))
    ensures if qLen > 1 then r == Queued(qLen) else r in {DownloadFailed, PlayFailed, Playing}
    ensures r.Queued? ==> calls.chats.QueueOf(chatId) == old(calls.chats.QueueOf(chatId))
    ensures r.DownloadFailed? <==> qLen == 1 && old(track.FilePath) == "" && download.None?
    ensures r.DownloadFailed? || r.PlayFailed? ==> calls.chats.QueueOf(chatId) == []
    ensures r.Playing? ==> calls.chats.QueueOf(chatId) == [track] || calls.chats.QueueOf(chatId) == []
    ensures r.Playing? || r.PlayFailed? ==>
              PlaysAs(chatId, at, calls.pool.Count, r.Playing?, calls.chats.QueueOf(chatId) != [])
    ensures r.Queued? || !probe || old(track.Duration) != 0 ==> track.Duration == old(track.Duration)
    ensures calls.HandedTo(chatId) ==
              if r.Playing? || r.PlayFailed? then old(calls.HandedTo(chatId)) + [track] else old(calls.HandedTo(chatId))
    ensures r.Playing? || r.PlayFailed? ==>
              track.FilePath == if old(track.FilePath) == "" then download.value else old(track.FilePath)
  {
    if qLen > 1 {
      return Queued(qLen);
    }
    if track.FilePath == "" && download.None? {
      Drop(calls, chatId);
      return DownloadFailed;
    }
    var ok := FetchAndPlay(calls, chatId, track, download, probe, at);
    r := if ok then Playing else PlayFailed;
  }

  /** The download and the start of the only track of a chat. */
  method FetchAndPlay(calls: TelegramCalls, chatId: int, track: Track, download: Option<string>, probe: bool,
                      at: nat -> Attempt) returns (ok: bool)
    requires calls.Valid() && calls.chats.QueueOf(chatId) == [track] && (track.FilePath == "" ==> download.Some?)
    modifies track`FilePath, track`Duration, calls`handed, calls.Parts(), calls.chats.Footprint(chatId)
    ensures calls.Valid() && calls.OtherChatsKept(chatId)
    ensures calls.chats.Footprint(chatId) <= old(calls.chats.Footprint(chatId))
    ensures calls.chats.QueueOf(chatId) == [] || (ok && calls.chats.QueueOf(chatId) == [track])
    ensures PlaysAs(chatId, at, calls.pool.Count, ok, calls.chats.QueueOf(chatId) != [])
    ensures calls.HandedTo(chatId) == old(calls.HandedTo(chatId)) + [track]
    ensures track.FilePath == if old(track.FilePath) == "" then download.value else old(track.FilePath)
    ensures !probe || old(track.Duration) != 0 ==> track.Duration == old(track.Duration)
  {
    Fetch(track, download, probe);
    ok := PlayOrDrop(calls, chatId, track, at);
  }

  /** The download, if the track has no file yet. */
  method Fetch(track: Track, download: Option<string>, probe: bool)
    requires track.FilePath == "" ==> download.Some?
    modifies track`FilePath, track`Duration
    ensures track.FilePath == if old(track.FilePath) == "" then download.value else old(track.FilePath)
    ensures !probe || old(track.Duration) != 0 ==> track.Duration == old(track.Duration)
  {
    if track.FilePath == "" {
      if probe && track.Duration == 0 {
        var probed: int := *;
        track.Duration := probed;
      }
      track.FilePath := download.value;
    }
  }

  /** The new entry `t` for `m` is behind `q` in `now`. */
  ghost predicate QueuedBehind(q: seq<Track>, now: seq<Track>, m: MusicTrack)
    reads now
  {
    |now| == |q| + 1 && now[..|q|] == q && IsEntryFor(now[|q|], m)
  }

  /** A chat that has just started: the entry for `m` is playing, unless a rotation has dropped it. */
  ghost predicate Started(now: seq<Track>, m: MusicTrack)
    reads now
  {
    now == [] || (|now| == 1 && now[0].TrackID == m.Id && now[0].Name == m.Title
                  && (now[0].Duration == m.Duration || m.Duration == 0))
  }

  /** PlayMedia has been given the entry for `m` if it was started, and nothing otherwise. */
  ghost predicate HandedIfStarted(before: seq<Track>, now: seq<Track>, m: MusicTrack, r: Outcome) {
    if r.Playing? || r.PlayFailed? then
      |now| == |before| + 1 && now[..|before|] == before && now[|before|].TrackID == m.Id && now[|before|].Name == m.Title
    else now == before
  }

  /** A new entry for `m`, queued last. */
  method AddEntry(calls: TelegramCalls, chatId: int, m: MusicTrack, filePath: string) returns (t: Track, qLen: nat)
    requires calls.Valid()
    modifies calls.chats, calls.chats.Footprint(chatId)
    ensures calls.Valid() && calls.OtherChatsKept(chatId)
    ensures fresh(calls.chats.Footprint(chatId) - old(calls.chats.Footprint(chatId)))
    ensures fresh(t) && IsEntryFor(t, m) && t.FilePath == filePath && t.Loop == 0
    ensures calls.chats.QueueOf(chatId) == old(calls.chats.QueueOf(chatId)) + [t] && qLen == |calls.chats.QueueOf(chatId)|
  {
    t := new Track(m.Id, m.Title, filePath, m.Duration);
    qLen := calls.chats.AddSong(chatId, t);
  }

  /** What both handlers do once a track is accepted: a new entry, behind others or started at once. */
  method AddAndStart(calls: TelegramCalls, chatId: int, m: MusicTrack, filePath: string, download: Option<string>,
                     probe: bool, at: nat -> Attempt) returns (r: Outcome)
    requires calls.Valid()
    modifies calls`handed, calls.Parts(), calls.chats.Footprint(chatId)
    ensures calls.Valid() && calls.OtherChatsKept(chatId)
    ensures fresh(calls.chats.Footprint(chatId) - old(calls.chats.Footprint(chatId)))
    ensures r.Queued? <==> old(calls.chats.QueueOf(chatId)) != []
    ensures r.DownloadFailed? <==> !r.Queued? && filePath == "" && download.None?
    ensures r.Queued? || r.DownloadFailed? || r.PlayFailed? || r.Playing?
    ensures r.Queued? ==> r.length == |calls.chats.QueueOf(chatId)|
                          && QueuedBehind(old(calls.chats.QueueOf(chatId)), calls.chats.QueueOf(chatId), m)
    ensures r.DownloadFailed? || r.PlayFailed? ==> calls.chats.QueueOf(chatId) == []
    ensures r.Playing? ==> Started(calls.chats.QueueOf(chatId), m)
    ensures r.Playing? || r.PlayFailed? ==>
              PlaysAs(chatId, at, calls.pool.Count, r.Playing?, calls.chats.QueueOf(chatId) != [])
    ensures HandedIfStarted(old(calls.HandedTo(chatId)), calls.HandedTo(chatId), m, r)
  {
    var saveCache, qLen := AddEntry(calls, chatId, m, filePath);
    r := StartIfFirst(calls, chatId, saveCache, qLen, download, probe, at);
  }

  /**
    handleSingleTrack. A track over the limit changes nothing; with others queued it goes behind them;
    alone it is played, and after every failure the queue is as empty as it was.
  */
  method HandleSingleTrack(calls: TelegramCalls, chatId: int, song: MusicTrack, filePath: string, limit: int,
                           download: Option<string>, at: nat -> Attempt) returns (r: Outcome)
    requires calls.Valid()
    modifies calls`handed, calls.Parts(), calls.chats.Footprint(chatId)
    ensures calls.Valid() && calls.OtherChatsKept(chatId)
    ensures fresh(calls.chats.Footprint(chatId) - old(calls.chats.Footprint(chatId)))
    ensures r.TooLong? <==> song.Duration > limit
    ensures r.TooLong? ==> calls.chats.Queues == old(calls.chats.Queues)
    ensures r.Queued? <==> !r.TooLong? && old(calls.chats.QueueOf(chatId)) != []
    ensures r.DownloadFailed? <==> !r.TooLong? && !r.Queued? && filePath == "" && download.None?
    ensures r.TooLong? || r.Queued? || r.DownloadFailed? || r.PlayFailed? || r.Playing?
    ensures r.Queued? ==> r.length == |calls.chats.QueueOf(chatId)|
                          && QueuedBehind(old(calls.chats.QueueOf(chatId)), calls.chats.QueueOf(chatId), song)
    ensures r.DownloadFailed? || r.PlayFailed? ==> calls.chats.QueueOf(chatId) == []
    ensures r.Playing? ==> Started(calls.chats.QueueOf(chatId), song)
    ensures r.Playing? || r.PlayFailed? ==>
              PlaysAs(chatId, at, calls.pool.Count, r.Playing?, calls.chats.QueueOf(chatId) != [])
    ensures HandedIfStarted(old(calls.HandedTo(chatId)), calls.HandedTo(chatId), song, r)
  {
    if song.Duration > limit {
      return TooLong;
    }
    r := AddAndStart(calls, chatId, song, filePath, download, false, at);
  }

  /** handleMedia: the same for a media message, after a size check and a check for the same file. */
  method HandleMedia(calls: TelegramCalls, chatId: int, file: MusicTrack, size: int, maxSize: int,
                     download: Option<string>, at: nat -> Attempt) returns (r: Outcome)
    requires calls.Valid()
    modifies calls`handed, calls.Parts(), calls.chats.Footprint(chatId)
    ensures calls.Valid() && calls.OtherChatsKept(chatId)
    ensures fresh(calls.chats.Footprint(chatId) - old(calls.chats.Footprint(chatId)))
    ensures r.TooLarge? <==> size > maxSize
    ensures r.Duplicate? <==> size <= maxSize && exists t | t in old(calls.chats.QueueOf(chatId)) :: t.TrackID == file.Id
    ensures r.TooLarge? || r.Duplicate? ==> calls.chats.Queues == old(calls.chats.Queues)
    ensures r.Queued? <==> !r.TooLarge? && !r.Duplicate? && old(calls.chats.QueueOf(chatId)) != []
    ensures r.DownloadFailed? <==> !r.TooLarge? && !r.Duplicate? && !r.Queued? && download.None?
    ensures r.TooLarge? || r.Duplicate? || r.Queued? || r.DownloadFailed? || r.PlayFailed? || r.Playing?
    ensures r.Queued? ==> r.length == |calls.chats.QueueOf(chatId)|
                          && QueuedBehind(old(calls.chats.QueueOf(chatId)), calls.chats.QueueOf(chatId), file)
    ensures r.DownloadFailed? || r.PlayFailed? ==> calls.chats.QueueOf(chatId) == []
    ensures r.Playing? ==> Started(calls.chats.QueueOf(chatId), file)
    ensures r.Playing? || r.PlayFailed? ==>
              PlaysAs(chatId, at, calls.pool.Count, r.Playing?, calls.chats.QueueOf(chatId) != [])
    ensures HandedIfStarted(old(calls.HandedTo(chatId)), calls.HandedTo(chatId), file, r)
  {
    if size > maxSize {
      return TooLarge;
    }
    var existing := calls.chats.GetTrackIfExists(chatId, file.Id);
    if existing != null {
      return Duplicate;
    }
    r := AddAndStart(calls, chatId, file, "", download, true, at);
  }

  /** The tracks within the duration limit, in order. */
  function Accepted(tracks: seq<MusicTrack>, limit: int): (r: seq<MusicTrack>)
  {
    if tracks == [] then []
    else
      var n := |tracks| - 1;
      Accepted(tracks[..n], limit) + if tracks[n].Duration > limit then [] else [tracks[n]]
  }

  lemma AcceptedSnoc(tracks: seq<MusicTrack>, m: MusicTrack, limit: int)
    ensures Accepted(tracks + [m], limit) ==
            Accepted(tracks, limit) + if m.Duration > limit then [] else [m]
  {
    assert (tracks + [m])[..|tracks|] == tracks;
  }

  /** The entries are new, pairwise different, unlooped and without a file, and stand for `ms` in order. */
  ghost predicate AreEntriesFor(ts: seq<Track>, ms: seq<MusicTrack>)
    reads ts
  {
    && |ts| == |ms| && S.Distinct(ts)
    && forall i | 0 <= i < |ts| :: IsEntryFor(ts[i], ms[i]) && ts[i].FilePath == "" && ts[i].Loop == 0
  }

  /** The loop of handleMultipleTracks: one new entry per track within the limit. */
  method BuildEntries(tracks: seq<MusicTrack>, limit: int) returns (toAdd: Slice, ghost ts: seq<Track>)
    ensures fresh(toAdd.arr) && toAdd.Holds(ts) && fresh(ts)
    ensures AreEntriesFor(ts, Accepted(tracks, limit))
  {
    var empty := new Track?[0];
    toAdd, ts := Slice(empty, 0, 0), [];
    for i := 0 to |tracks|
      invariant fresh(toAdd.arr) && toAdd.Holds(ts) && fresh(ts)
      invariant AreEntriesFor(ts, Accepted(tracks[..i], limit))
    {
      var track := tracks[i];
      assert tracks[..i + 1] == tracks[..i] + [track];
      AcceptedSnoc(tracks[..i], track, limit);
      if track.Duration > limit {
        continue;
      }
      var saveCache := new Track(track.Id, track.Title, "", track.Duration);
      toAdd := Append(toAdd, ts, [saveCache]);
      ts := ts + [saveCache];
    }
    assert tracks[..|tracks|] == tracks;
  }

  /** A chat's playback once a playlist `ts` has been queued on an empty queue. */
  ghost function PlaylistState(ts: seq<Track>, attempts: nat, played: seq<Track>, stops: nat): (s: S.Chat<Track>)
    requires ts != []
    ensures S.Distinct(ts) ==> S.FreshPlaylist(s, ts)
    ensures forall t | t in ts :: t in s.file && s.file[t] == ""
  {
    S.Chat(ts, map t | t in ts :: if t == ts[0] then 1 else 0, map t | t in ts :: "", attempts, played, stops)
  }

  /** Loop = 1 on the first track, then PlayNext, which uses that count up and plays the first track. */
  method StartPlaylist(calls: TelegramCalls, chatId: int, firstTrack: Track, ghost ts: seq<Track>,
                       ghost ms: seq<MusicTrack>) returns (cleared: bool)
    requires calls.Valid() && ts != [] && firstTrack == ts[0] && AreEntriesFor(ts, ms)
    requires calls.chats.QueueOf(chatId) == ts
    modifies ts, calls, calls.Parts(), calls.chats.Footprint(chatId)
    ensures calls.OtherChatsKept(chatId)
    ensures calls.chats.Footprint(chatId) <= old(calls.chats.Footprint(chatId))
    ensures calls.Shows(chatId, S.PlayNext(calls.env, PlaylistState(ts, old(calls.attempts), old(calls.HandedTo(chatId)), old(calls.stops)), cleared))
    ensures calls.AllStart(chatId) ==> !cleared && (old(calls.InStep(chatId)) ==> calls.InStep(chatId))
  {
    ghost var s := PlaylistState(ts, calls.attempts, calls.HandedTo(chatId), calls.stops);
    LoopFirst(calls, chatId, firstTrack, ts, ms);
    cleared := calls.EndOfAudio(chatId, s);
  }

  /** Loop = 1 on the first of fresh entries. */
  method LoopFirst(calls: TelegramCalls, chatId: int, firstTrack: Track, ghost ts: seq<Track>, ghost ms: seq<MusicTrack>)
    requires calls.Valid() && ts != [] && firstTrack == ts[0] && AreEntriesFor(ts, ms)
    requires calls.chats.QueueOf(chatId) == ts
    modifies firstTrack`Loop
    ensures calls.Shows(chatId, PlaylistState(ts, calls.attempts, calls.HandedTo(chatId), calls.stops))
  {
    firstTrack.Loop := 1;
  }

  /** The state of a chat that starts the playlist `ts` when its calls stand at these counts. */
  ghost function Launched(env: S.Env, ts: seq<Track>, attempts: nat, played: seq<Track>, stops: nat, cleared: bool): S.Chat<Track>
    requires ts != []
  {
    S.PlayNext(env, PlaylistState(ts, attempts, played, stops), cleared)
  }

  /** AddSongs, seen from here. */
  method AddEntries(calls: TelegramCalls, chatId: int, toAdd: Slice, ghost ts: seq<Track>) returns (qLenAfter: nat)
    requires calls.Valid() && toAdd.Shows(ts) && toAdd.arr !in calls.chats.Arrays()
    modifies calls.chats, calls.chats.Footprint(chatId)
    ensures calls.Valid() && calls.OtherChatsKept(chatId)
    ensures fresh(calls.chats.Footprint(chatId) - old(calls.chats.Footprint(chatId)))
    ensures unchanged(toAdd.arr)
    ensures calls.chats.QueueOf(chatId) == old(calls.chats.QueueOf(chatId)) + ts && qLenAfter == |calls.chats.QueueOf(chatId)|
  {
    qLenAfter := calls.chats.AddSongs(chatId, toAdd, ts);
  }

  /** The second half of handleMultipleTracks: queue the entries, and start them if nothing was queued. */
  method QueueOrStart(calls: TelegramCalls, chatId: int, toAdd: Slice, ghost ts: seq<Track>, ghost ms: seq<MusicTrack>)
    returns (r: Outcome, cleared: bool)
    requires calls.Valid() && toAdd.Shows(ts) && ts != [] && AreEntriesFor(ts, ms)
    requires toAdd.arr !in calls.chats.Arrays()
    modifies ts, calls, calls.Parts(), calls.chats.Footprint(chatId)
    ensures calls.OtherChatsKept(chatId)
    ensures fresh(calls.chats.Footprint(chatId) - old(calls.chats.Footprint(chatId)))
    ensures old(calls.chats.QueueOf(chatId)) != [] ==>
              && calls.Valid() && r == Queued(|calls.chats.QueueOf(chatId)|) && AreEntriesFor(ts, ms)
              && calls.chats.QueueOf(chatId) == old(calls.chats.QueueOf(chatId)) + ts
    ensures old(calls.chats.QueueOf(chatId)) == [] ==>
              && r.Playing?
              && calls.Shows(chatId, Launched(calls.env, ts, old(calls.attempts), old(calls.HandedTo(chatId)), old(calls.stops), cleared))
              && (calls.AllStart(chatId) ==> !cleared && (old(calls.InStep(chatId)) ==> calls.InStep(chatId)))
  {
    assert toAdd.arr[toAdd.off + 0] == ts[0];
    var qLenAfter := AddEntries(calls, chatId, toAdd, ts);
    var startLen := qLenAfter - toAdd.len;
    if startLen != 0 {
      return Queued(qLenAfter), false;
    }
    var firstTrack := toAdd.arr[toAdd.off];
    cleared := StartPlaylist(calls, chatId, firstTrack, ts, ms);
    r := Playing;
  }

  /**
    handleMultipleTracks: the accepted tracks join the queue in order. On an empty queue the state becomes that
    of PlayNext on a fresh playlist of exactly those tracks, so PlaybackSpec.PlaylistPlaysOnceInOrder says what
    the stream-end events after it play.
  */
  method HandleMultipleTracks(calls: TelegramCalls, chatId: int, tracks: seq<MusicTrack>, limit: int)
    returns (r: Outcome, ghost ts: seq<Track>, cleared: bool)
    requires calls.Valid()
    modifies calls, calls.Parts(), calls.chats.Footprint(chatId)
    ensures calls.OtherChatsKept(chatId)
    ensures fresh(calls.chats.Footprint(chatId) - old(calls.chats.Footprint(chatId)))
    ensures Accepted(tracks, limit) == [] ==>
              (r.NoTracks? || r.TooLong?) && calls.Valid() && calls.chats.Queues == old(calls.chats.Queues)
    ensures Accepted(tracks, limit) != [] ==> fresh(ts) && S.Distinct(ts) && StandFor(ts, Accepted(tracks, limit))
    ensures Accepted(tracks, limit) != [] && old(calls.chats.QueueOf(chatId)) != [] ==>
              && calls.Valid() && r == Queued(|calls.chats.QueueOf(chatId)|) && AreEntriesFor(ts, Accepted(tracks, limit))
              && calls.chats.QueueOf(chatId) == old(calls.chats.QueueOf(chatId)) + ts
    ensures Accepted(tracks, limit) != [] && old(calls.chats.QueueOf(chatId)) == [] ==>
              && r.Playing?
              && calls.Shows(chatId, Launched(calls.env, ts, old(calls.attempts), old(calls.HandedTo(chatId)), old(calls.stops), cleared))
              && (calls.AllStart(chatId) ==> !cleared && (old(calls.InStep(chatId)) ==> calls.InStep(chatId)))
  {
    cleared := false;
    var toAdd;
    toAdd, ts := BuildEntries(tracks, limit);
    if toAdd.len == 0 {
      r := if |tracks| > 0 then TooLong else NoTracks;
      return;
    }
    r, cleared := QueueOrStart(calls, chatId, toAdd, ts, Accepted(tracks, limit));
  }

  /** The entries have the IDs and names of `ms`, in order. */
  predicate StandFor(ts: seq<Track>, ms: seq<MusicTrack>) {
    |ts| == |ms| && forall i | 0 <= i < |ts| :: ts[i].TrackID == ms[i].Id && ts[i].Name == ms[i].Title
  }

  /**
    A playlist from the handler to its end, on the heap: queued in an idle chat, and then up to `k` ends of
    audio streams. While no PlayMedia call empties the queue, as when every stream starts, PlayMedia is handed
    the first k + 1 of the accepted ones whose download works, each once and in order; and when k is the number
    of all of them, the queue has run out and Stop has been called once.
  */
  method PlayPlaylist(calls: TelegramCalls, chatId: int, tracks: seq<MusicTrack>, limit: int, k: nat)
    returns (ghost ts: seq<Track>, cleared: bool)
    requires calls.Valid() && calls.chats.QueueOf(chatId) == [] && Accepted(tracks, limit) != []
    modifies calls, calls.Parts(), calls.chats.Footprint(chatId)
    ensures calls.OtherChatsKept(chatId)
    ensures ts != [] && S.Distinct(ts) && StandFor(ts, Accepted(tracks, limit))
    ensures calls.AllStart(chatId) ==> !cleared && (old(calls.InStep(chatId)) ==> calls.InStep(chatId))
    ensures !cleared && S.SendsSucceed(calls.env) ==>
              RanThrough(calls, chatId, ts, k, old(calls.attempts), old(calls.HandedTo(chatId)), old(calls.stops))
  {
    var r;
    ghost var attempts, played, stops := calls.attempts, calls.HandedTo(chatId), calls.stops;
    r, ts, cleared := HandleMultipleTracks(calls, chatId, tracks, limit);
    if !cleared {
      cleared := RunThrough(calls, chatId, ts, k, attempts, played, stops);
    }
  }

  /**
    From these counts the playlist `ts` has been started, and k ends of audio streams have come: PlayMedia has
    been given the first k + 1 of those whose download works, or the queue has run out.
  */
  ghost predicate RanThrough(calls: TelegramCalls, chatId: int, ts: seq<Track>, k: nat, attempts: nat, played: seq<Track>, stops: nat)
    reads calls, calls.chats
  {
    var want := Wanted(calls.env, ts, attempts);
    && (k < |want| ==> calls.HandedTo(chatId) == played + want[..k + 1] && calls.stops == stops)
    && (k == |want| ==> calls.HandedTo(chatId) == played + want && calls.stops == stops + 1 && calls.chats.QueueOf(chatId) == [])
  }

  /** The ends of its streams, for a playlist just started. */
  method RunThrough(calls: TelegramCalls, chatId: int, ghost ts: seq<Track>, k: nat,
                    ghost attempts: nat, ghost played: seq<Track>, ghost stops: nat) returns (cleared: bool)
    requires ts != [] && S.Distinct(ts) && calls.Shows(chatId, Launched(calls.env, ts, attempts, played, stops, false))
    modifies calls, calls.Parts(), calls.chats.Footprint(chatId), set t | t in ts
    ensures calls.OtherChatsKept(chatId)
    ensures calls.AllStart(chatId) ==> !cleared && (old(calls.InStep(chatId)) ==> calls.InStep(chatId))
    ensures !cleared && S.SendsSucceed(calls.env) ==> RanThrough(calls, chatId, ts, k, attempts, played, stops)
  {
    ghost var s := PlaylistState(ts, attempts, played, stops);
    assert s.loop.Keys == set t | t in ts;
    cleared := calls.Deliver(chatId, k, S.PlayNext(calls.env, s, false));
    if S.SendsSucceed(calls.env) {
      PlaylistRuns(calls.env, s, ts, k);
    }
  }

  /** The tracks of a fresh playlist that get played: those whose download works. */
  ghost function Wanted(env: S.Env, ts: seq<Track>, attempts: nat): seq<Track> {
    S.Playable(env, ts, map t | t in ts :: "", attempts)
  }

  lemma PlaylistRuns(env: S.Env, s: S.Chat<Track>, ts: seq<Track>, k: nat)
    requires S.SendsSucceed(env) && S.FreshPlaylist(s, ts) && s.file == map t | t in ts :: ""
    ensures var want, r := Wanted(env, ts, s.attempts), S.Events(env, S.PlayNext(env, s, false), k);
            && (k < |want| ==> r.played == s.played + want[..k + 1] && r.stops == s.stops)
            && (k == |want| ==> r.played == s.played + want && r.stops == s.stops + 1 && r.queue == [])
  {
    S.PlaylistRuns(env, s, ts, k);
  }
}

# TgMusic: verified model of playback, caches, assistants and calls

A Dafny model of the parts of the music bot that hold state over time: the per-chat track queues and the
playback engine driven by stream-end events, the TTL cache with its janitor and the database caches built on
it, the pool of assistant clients, private-call handshakes and group-call bookkeeping, and four self-contained
algorithms (result search, duration printing and parsing, Ogg header patching, video scaling). `dafny verify
dfyconfig.toml` checks all of it.

## How it is modelled

- **Objects stay objects.** What the source updates in place is a class here with the same fields, and each
  method is proved against a value: the queue cacher against a map from chat to sequence of tracks, the TTL
  cache against its un-deleted writes, the database caches against the collection, `TelegramCalls` against the
  function `PlaybackSpec.PlayNext`, the call context against `Participants.MentionAll`. Lemmas then speak
  about those values.
- **Go slices** are windows on a backing array (`ChatQueue.Slice`), with the shifting, the writing of nil and
  the in-place `append` of the source. The nil slice is a window of no capacity. The one-field `ChatData`
  record, which never leaves the cacher, is replaced by its slice.
- **Concurrency.** The cache, the janitor, the bounded-staleness setting and the P2P call are state machines
  whose steps are the source's lock regions, channel operations and remote calls; a statement about a run is
  about every interleaving. The database methods, the pool and the engine are also given as sequential code.
- **The outside world.** Time is a clock that never goes back. A database call is told by an argument whether
  it succeeds, and a failed call has not been applied. Answers of Telegram, of the call binding and of
  downloads are arguments: those of `PlayMedia` are given for every play attempt and every client tried. What
  Telegram, the binding and `PlayMedia` are asked to do is kept in logs that only those calls write. An error
  text is told by the markers the code looks for in it. Go's map order is an arbitrary order.
- **Integers.** `int` arithmetic that can overflow (the duration parsers) wraps at 64 bits explicitly. Queue
  lengths, loop counters, chat IDs and clock readings are unbounded.

## Main results

1. *Playback trace.* With distinct tracks, sends that work and `PlayMedia` succeeding at once, the stream-end
   events hand `PlayMedia`, and it the binding, exactly t0^l0 · t1^(1+l1) · … without the attempts whose
   download fails, one an event; the next event empties the queue and calls Stop (`PlaybackSpec.PlaybackTrace`;
   for k events on the heap objects, `Playback.TelegramCalls.DeliverPlan`).
2. *Termination with a tight bound.* One call makes at most (sum of positive loop counters) + length − 1
   attempts, and that many are made when no download works (`AttemptBound`, `AttemptBoundIsTight`).
3. *A playlist plays once and in order* (`PlaylistPlaysOnceInOrder`; on the heap, from the handler through its
   stream-end events to the end, `Handlers.PlayPlaylist`).
4. *The cache under every interleaving*: a `Get` answers as the writes stood at its read and the clock at its
   check; no live entry is evicted; a value served at T was stored no earlier than T − ttl − d, and that bound
   is attained for all ttl and d; and interleaved database calls are coherent exactly when no cache.Set comes
   both late and last (`Staleness.CoherentIffCovered`).
5. *The janitor* runs iff something is registered, never closes a channel twice, never orphans a worker, and
   has one worker at most exactly when every start finds the earlier workers gone. From every run with something
   registered it can evict from every registered cache (`Janitor.EveryCacheCanBeSwept`).
6. *The P2P handshake* keeps its order in both roles for every order of updates, cleans up on every exit, and
   can be completed; every failure ends the call; and it is known exactly which update handlers return from
   their send.
7. *Participants*: after any list of updates each participant agrees with its last mention, exactly unless that
   one had a nameless video; the binding is asked to add and remove exactly what that mention calls for, by the
   endpoint last added (`Participants.LastMentionAsks`).
8. *Assistants*: indices always resolve; a stored join fixes the index that every later lookup and join of the
   chat uses, over any run, until a failed join removes it (`AssistantPool.JoinThenPerform`); and joining asks
   Telegram for exactly the acts that the membership and the answers call for (`AssistantPool.JoinAssistant`).
9. *The rotation*: after a failed attempt whose deletion worked the next one starts from no assignment and so
   draws afresh; the binding is asked for the streams of the attempts that got to one, and for nothing else
   (`Playback.TelegramCalls.PlayMedia`).
10. *Search*: what is collected is one video for every presentable renderer that no other hides, in the order of
   their positions (`Search.CollectsAllInOrder`); a limit takes a prefix; map orders only permute.
11. *Durations, patches, sizes*: the printer and both parsers agree exactly below a day; Ogg patching does not
   depend on order; a scaled size is even, fits, and is just below exact.

Statements that turned out false of the code are kept with the code as it is, each with a case that shows it
and the exact condition under which it holds:

| statement | a case against it | it holds exactly when |
|---|---|---|
| a `Get` does not miss a live key | `ConcurrentCache.RefreshCanBeMissed` | the key has not been refreshed since its read (`LiveMissIffRefreshed`) |
| there is one janitor worker at most | `Janitor.TwoWorkersCanServe` | each start finds the earlier workers gone (`SingleIffClean`) |
| reads are coherent under concurrency | `Staleness.StalenessBoundIsTight` | each cache.Set finds its value still stored, or another call on its key to follow (`CoherentIffCovered`) |
| an update handler returns | `P2PCall.LateDiscardBlocks` | it sends on the call's channel before connectCall has left its select, and is the one received from (`ReturnsIffHeard`, `ReturnsIffTaken`) |
| a track that plays is queued | `Playback.RotationCanEndWell`, on the heap `TelegramCalls.PlaysUnqueued` | the first assistant's stream starts (`Playback.QueueKeptIffFirstPlays`) |
| the printed duration parses back | `Durations.DayFormIsNoTime` | it is below a day and not negative (`RoundTripIffBelowADay`) |
| a scaled video has positive sides | `VideoSize.OnePixelVanishes` | it is at least 2 x 2 and not longer than 640 : 1 or 1 : 360 (`PositiveIffNotDegenerate`) |
| after any updates, a source is recorded iff the last mention has the video | `Participants.EmptyEndpointIsNotRecorded` | that mention's endpoint is not empty, or a source was recorded when it came (`RecordedIffPresent`, `LastMentionWins`) |
| after any updates, the binding receives what is recorded | `Participants.LeaverIsStillReceived` | the last mention has no nameless video, and lacks none that was left behind when its participant left (`BindingFollowsRecord`) |

## Model

| member | source | states |
|---|---|---|
| `ChatQueue.Append` | src/core/cache/chat_cache.go:46-62 | append to a live window: in place iff the capacity lasts, else in a fresh array with the old one untouched; the old tracks stay, the new follow, and no slot outside the window holds a track |
| `ChatQueue.ChatCacher.constructor` | src/core/cache/chat_cache.go:28-33 | no chat has a queue |
| `ChatQueue.ChatCacher.GetOrCreate` | src/core/cache/chat_cache.go:36-43 | an unknown chat gets an empty queue in an array nobody else has; a known one keeps its window |
| `ChatQueue.ChatCacher.AddSong` | src/core/cache/chat_cache.go:46-53 | the track goes to the end, the new length is returned, other chats are untouched |
| `ChatQueue.ChatCacher.AddSongs` | src/core/cache/chat_cache.go:56-63 | the tracks follow in order; of the caller's array only the window is read, it stays unchanged, and it never becomes, or shares, a live queue's array |
| `ChatQueue.ChatCacher.GetPlayingTrack` | src/core/cache/chat_cache.go:66-75 | the head, or nil for an empty or unknown queue |
| `ChatQueue.ChatCacher.GetUpcomingTrack` | src/core/cache/chat_cache.go:78-87 | the second track, or nil when there are fewer than two |
| `ChatQueue.ChatCacher.RemoveCurrentSong` | src/core/cache/chat_cache.go:90-103 | pops exactly the head; nil and no change when nothing is queued |
| `ChatQueue.ChatCacher.RemoveTrack` | src/core/cache/chat_cache.go:106-120 | shift-and-nil deletes exactly position index; false and no change out of range, negative indices included |
| `ChatQueue.ChatCacher.IsActive` | src/core/cache/chat_cache.go:123-129 | true iff something is queued |
| `ChatQueue.ChatCacher.ClearChat` | src/core/cache/chat_cache.go:132-142 | the chat is forgotten and its old array retains no track; other chats are untouched |
| `ChatQueue.ChatCacher.GetQueueLength` | src/core/cache/chat_cache.go:145-154 | the length of the queue, 0 for an unknown chat |
| `ChatQueue.ChatCacher.GetLoopCount` | src/core/cache/chat_cache.go:157-167 | the head's counter, 0 when there is no head |
| `ChatQueue.ChatCacher.SetLoopCount` | src/core/cache/chat_cache.go:170-180 | sets the head's counter through the shared pointer, no other track's; false without a head |
| `ChatQueue.ChatCacher.GetQueue` | src/core/cache/chat_cache.go:183-192 | a snapshot of the queue in an array that is no live queue's |
| `ChatQueue.ChatCacher.GetActiveChats` | src/core/cache/chat_cache.go:195-206 | exactly the chats with something queued, each once, for every map order |
| `ChatQueue.ChatCacher.GetTrackIfExists` | src/core/cache/chat_cache.go:209-226 | the first queued track with the ID; nil iff there is none |
| `ChatQueue.QueueIsFifo` | src/core/cache/chat_cache.go:46-103 | over any run of pushes and pops, what was popped followed by what is left is what was there followed by what was pushed |
| `ChatQueue.ChatCacher.AppendTo` | src/core/cache/chat_cache.go:49-51 | the append shared by AddSong and AddSongs: this chat's window gets the tracks, in its own or a fresh array |
| `ChatQueue.ShiftOut` | src/core/cache/chat_cache.go:114-117 | the copy and the nil of RemoveTrack leave a window on exactly the other tracks |
| `ChatQueue.ChatCacher.Execute` | src/core/cache/chat_cache.go:46-103 | the methods, called one after the other, run a chat as RunQueue says, so QueueIsFifo is about them; other chats are untouched |
| `PlaybackSpec.LoopSumDrops` | src/vc/calls.go:198-204 | using up one count of a track lowers the sum of counters, by at least one if the track is queued |
| `PlaybackSpec.Repeated` | src/vc/calls.go:198-204 | repeating the head lowers the termination measure |
| `PlaybackSpec.Advanced` | src/vc/calls.go:207-211 | taking a head off lowers the termination measure |
| `PlaybackSpec.AttemptBound` | src/vc/calls.go:197-236 | from a non-empty queue one PlayNext makes at most (sum of positive counters) + length - 1 attempts, for every pattern of failures |
| `PlaybackSpec.SongBound` | src/vc/calls.go:225-236 | the same for playSong: one attempt more |
| `PlaybackSpec.AttemptBoundIsTight` | src/vc/calls.go:197-236 | with distinct tracks and no download working, exactly that many attempts are made in one call, and then the call is stopped |
| `PlaybackSpec.EventFollowsPlan` | src/vc/calls.go:197-236 | one event plays the first track of the plan and leaves the rest as the plan, or, when the plan is empty, tries all the word and stops |
| `PlaybackSpec.SongFollowsPlan` | src/vc/calls.go:225-262 | the same from playSong on a given track |
| `PlaybackSpec.PlanIsConsumed` | src/vc/calls.go:440-448 | after k events exactly the first k tracks of the plan have been played and the others are planned |
| `PlaybackSpec.PlaybackTrace` | src/vc/calls.go:197-236 | whole runs: the tracks played are t0^l0 t1^(1+l1) ... without failed downloads, one an event, the chat staying active; the next event empties the queue and stops |
| `PlaybackSpec.PlanWithoutFailures` | src/vc/calls.go:176-194 | when downloads work, nothing is deleted from the word |
| `PlaybackSpec.NoMoreStops` | src/vc/calls.go:207-213 | without a repeat or a next track PlayNext empties the queue and calls Stop once |
| `PlaybackSpec.UnsentEndsTheEvent` | src/vc/calls.go:225-232 | a message that cannot be sent ends the event: one attempt is spent, nothing is played, stored or stopped, and the head has been repeated or taken off |
| `PlaybackSpec.PlaylistRuns` | src/handlers/play.go:373-416 | seen from after the handler's PlayNext: k events later the first k + 1 wanted tracks have been played, or the queue has run out and Stop been called once |
| `PlaybackSpec.PlaylistWord` | src/handlers/play.go:378-415 | Loop = 1 on the first track makes the word of a fresh queue the playlist itself |
| `PlaybackSpec.PlaylistPlaysOnceInOrder` | src/handlers/play.go:351-416 | the handler's PlayNext and the events after it play every accepted track whose download works once, in order, then stop |
| `Playback.TelegramCalls.Play` | src/vc/calls.go:138-172 | with clients, an error forgets the chat's queue and success leaves it; without, the only error is that there are none; the attempt uses the client assigned, or the one drawn when none is; it reaches its stream iff the join went as its answers say, and then asks the binding for just that stream and ends as it does; no other chat's queue, assignment, link or membership changes |
| `Playback.TelegramCalls.Turn` | src/vc/calls.go:114-128 | one turn of the rotation keeps that; after a rotating error, when the deletion works, the chat has no assignment |
| `Playback.TelegramCalls.PlayMedia` | src/vc/calls.go:107-136 | records that it was given this song; at most one attempt per client; every attempt but the last failed with a rotating error; it stops at the first success or other error; each attempt after one whose deletion worked starts from a vacant assignment, as does the chat after such a last one; the binding was asked for exactly the streams of the attempts that got to one; any error leaves the queue empty, as does a rotation that ends well; no other chat's queue, assignment, link or membership changes |
| `Playback.TelegramCalls.Rotate` | src/vc/calls.go:115-130 | its loop |
| `Playback.TelegramCalls.Stream` | src/vc/calls.go:155-172 | call.Play: the binding is asked for this stream by this client, and an error, with a closed call told apart, forgets the queue |
| `Playback.TelegramCalls.StreamIfJoined` | src/vc/calls.go:147-158 | a failed join forgets the queue without a stream being asked for |
| `Playback.TelegramCalls.Find` | src/vc/calls.go:138-153 | what comes before: the client is the assigned or drawn one, and a group is joined as the answers say, with just the acts on Telegram that takes |
| `Playback.TelegramCalls.Forget` | src/vc/calls.go:123-128 | when the deletion works the chat has no assignment; no other chat's changes |
| `Playback.ExplainsOneMore` | src/vc/calls.go:115-130 | one more attempt, made from the assignment the last one left, keeps the account of the rotation |
| `Playback.RotationDrawsAfresh` | src/vc/calls.go:123-128 | so, after a flood, the next assistant of a private chat is the one drawn afresh |
| `Playback.RotationIsHeard` | src/vc/calls.go:115-135 | the binding is asked for the song first, and for nothing else once a stream starts |
| `Playback.TelegramCalls.Hand` | src/vc/calls.go:107-136 | the same for callers that look at the error only, which the streams decide when all are reached; the binding has been asked for the song, and the queue is emptied iff its first stream failed |
| `Playback.TelegramCalls.RepeatHead` | src/vc/calls.go:198-203 | the head's counter goes down by one, through the heap, and the head is next |
| `Playback.TelegramCalls.Advance` | src/vc/calls.go:207-212 | the head leaves and the one behind it is next |
| `Playback.TelegramCalls.Stop` | src/vc/calls.go:272-285 | clears the chat and tells the binding to stop, by the assigned client, iff an assistant is found, whatever stopping returns; every call is counted |
| `Playback.TelegramCalls.HandleNoSong` | src/vc/calls.go:217-222 | an empty queue stays empty, and Stop is called once, which tells the binding iff there is an assistant |
| `Playback.TelegramCalls.DownloadAndPrepare` | src/vc/calls.go:176-194 | a cached file is kept, a download is stored in the shared track, and success means a non-empty path |
| `Playback.TelegramCalls.Start` | src/vc/calls.go:238-245 | the song is what PlayMedia is given, the binding is asked for it, and this chat's queue is cleared iff the first stream of this attempt failed (when it is reached); no other chat changes |
| `Playback.TelegramCalls.PlayPrepared` | src/vc/calls.go:232-243 | after the download: the song goes to PlayMedia iff it has a file, and otherwise PlayNext goes on |
| `Playback.TelegramCalls.HandInChat` | src/vc/calls.go:107-136 | PlayMedia as this chat and the others see it: no other chat has been given a song |
| `Playback.TelegramCalls.PlayNext` | src/vc/calls.go:197-213 | on the heap it computes PlaybackSpec.PlayNext, for every pattern of failures, terminates, and leaves every other chat its queue, assignment, invite link and memberships; it gives PlayMedia one song at most, in its last attempt, whose media answers say what the binding was asked and whether the queue was cleared; without a song the binding is told nothing but a stop |
| `Playback.TelegramCalls.PlayNextSong` | src/vc/calls.go:207-210 | its branch for a track behind the head |
| `Playback.TelegramCalls.PlayNoMore` | src/vc/calls.go:212-213 | its branch for no such track |
| `Playback.TelegramCalls.PlaySong` | src/vc/calls.go:225-269 | on the heap it computes PlaybackSpec.PlaySong |
| `Playback.TelegramCalls.OnStreamEnd` | src/vc/calls.go:440-448 | the end of a video stream changes nothing; of an audio stream, it is one PlayNext |
| `Playback.RotationEnds` | src/vc/calls.go:115-132 | an attempt ends the rotation iff its error does not rotate or it was the last client's |
| `Playback.RotationCanEndWell` | src/vc/calls.go:107-136 | for every k below the number of clients, k floods and then a stream make PlayMedia succeed at attempt k + 1, and for k > 0 the chat's queue is gone |
| `Playback.TelegramCalls.PlaysUnqueued` | src/vc/calls.go:107-136 | that, on the heap |
| `Playback.QueueKeptIffFirstPlays` | src/vc/calls.go:138-172 | exactly when a chat keeps its queue through PlayMedia: iff the stream of the first assistant starts |
| `Playback.RotationEndsSo` | src/vc/calls.go:114-135 | when every attempt reaches its stream, the rotation ends as the streams alone decide |
| `Playback.QueuesAfterOneMore` | src/vc/calls.go:147-158 | one failed attempt is enough to forget the queue, and no other queue |
| `Playback.TelegramCalls.OneMore` | src/vc/calls.go:115-130 | one more attempt extends a rotation, and the queue is forgotten iff some attempt failed |
| `Playback.TelegramCalls.HandOver` | src/vc/calls.go:238-241 | PlayMedia changes no track, so only the chat's queue and what it was given may differ |
| `Playback.TelegramCalls.Deliver` | src/vc/calls.go:440-448 | k ends of audio streams on the heap are PlaybackSpec.Events as long as no attempt empties the queue, and none does when all streams start; then the binding is asked for exactly what PlayMedia is given, in order |
| `Playback.TelegramCalls.DeliverPlan` | src/vc/calls.go:440-448 | so k ends of streams give PlayMedia, and then the binding, the first k tracks of the plan |
| `Playback.TelegramCalls.EndOfAudio` | src/vc/calls.go:440-448 | one such end: when all streams start the queue stays, and the binding hears what PlayMedia is given |
| `Playback.TelegramCalls.AskedAsHanded` | src/vc/calls.go:238-241 | one event that starts its stream keeps what the binding was asked for equal to what PlayMedia was given |
| `Handlers.HandleSingleTrack` | src/handlers/play.go:271-335 | each outcome by its condition: over the limit nothing changes; with others queued the new entry goes last; alone it is downloaded and played, a failure leaves the queue empty, and a success leaves just that entry unless a rotation has dropped it; when the streams are reached, they decide which of these it is |
| `Handlers.HandleMedia` | src/handlers/play.go:149-232 | the same after the size and duplicate checks, which change nothing; an unknown duration may be filled in |
| `Handlers.StartIfFirst` | src/handlers/play.go:283-312 | the shared end: queued behind others, or downloaded and played with the queue emptied on failure |
| `Handlers.PlayOrDrop` | src/handlers/play.go:307-311 | PlayMedia for the only track of a chat leaves it queued or leaves nothing, and nothing after a failure, as the streams decide when they are reached |
| `Handlers.AcceptedSnoc` | src/handlers/play.go:351-370 | the duration filter works track by track |
| `Handlers.BuildEntries` | src/handlers/play.go:351-370 | one new, distinct, unlooped entry per track within the limit, in order |
| `Handlers.StartPlaylist` | src/handlers/play.go:378-415 | the state becomes that of PlayNext on a fresh playlist |
| `Handlers.HandleMultipleTracks` | src/handlers/play.go:338-424 | no acceptable track changes nothing; on a busy queue exactly the accepted tracks follow; on an empty one the chat starts as a fresh playlist of them |
| `Handlers.QueueOrStart` | src/handlers/play.go:373-415 | its second half: the entries follow those queued, or start as a fresh playlist |
| `Handlers.PlayPlaylist` | src/handlers/play.go:338-424 | from the handler to the end on the heap: when every stream starts, after k ends of audio streams PlayMedia has been given, and the binding asked for, the first k + 1 accepted tracks whose download works, once and in order, and after the last the queue has run out and Stop has been called once |
| `Handlers.PlaylistRuns` | src/handlers/play.go:338-424 | the run of a fresh playlist that this computes |
| `Handlers.RunThrough` | src/vc/calls.go:440-448 | its ends of streams, for a playlist just started |
| `Handlers.AddEntry` | src/handlers/play.go:277-283 | a new, unlooped entry with this file, ID, name and duration, queued last |
| `Handlers.FetchAndPlay` | src/handlers/play.go:297-312 | the only track of a chat is downloaded if it has no file, handed to PlayMedia once, and dropped after a failure |
| `Handlers.LoopFirst` | src/handlers/play.go:377-381 | the first entry of a fresh playlist loops once, the others do not |
| `Handlers.AddAndStart` | src/handlers/play.go:277-312 | what both handlers do with an accepted track |
| `Handlers.Fetch` | src/handlers/play.go:301-309 | a track without a file gets the downloaded one, and an unknown duration may be filled in for media |
| `TtlCache.Cache.constructor` | src/core/cache/cache.go:30-37 | an empty cache with this time to live |
| `TtlCache.Cache.Get` | src/core/cache/cache.go:40-63 | a hit iff the last un-deleted write has not passed its time when the call ends, and then its value; evictions make no difference |
| `TtlCache.Cache.Set` | src/core/cache/cache.go:66-68 | stores with the default time to live |
| `TtlCache.Cache.SetWithTTL` | src/core/cache/cache.go:71-78 | stores this value until now + ttl, nothing else |
| `TtlCache.Cache.Delete` | src/core/cache/cache.go:81-85 | removes this key only |
| `TtlCache.Cache.Clear` | src/core/cache/cache.go:88-92 | removes every key |
| `TtlCache.Cache.EvictExpired` | src/core/cache/cache.go:107-130 | removes exactly the entries expired when it looked; every live write stays |
| `TtlCache.Cache.ExpiredKeys` | src/core/cache/cache.go:110-117 | the first region collects exactly the expired keys, for every map order |
| `TtlCache.Cache.DropExpired` | src/core/cache/cache.go:123-129 | the second region deletes those of them still stored and still expired, and nothing else |
| `ConcurrentCache.StepKeepsData` | src/core/cache/cache.go:40-130 | each lock region keeps the data equal to the latest writes, give or take expired ones |
| `ConcurrentCache.StepKeepsPcs` | src/core/cache/cache.go:40-130 | each lock region keeps what every goroutine remembers true of the run |
| `ConcurrentCache.InvHolds` | src/core/cache/cache.go:40-130 | so in every interleaving |
| `ConcurrentCache.GetIsExact` | src/core/cache/cache.go:40-63 | every finished Get answers exactly as the writes stood at its read step and the clock at its check |
| `ConcurrentCache.NoLiveEntryIsEvicted` | src/core/cache/cache.go:107-130 | no step but a removal by a caller takes away a live entry, even one refreshed between scan and delete |
| `ConcurrentCache.LiveWritesAreStored` | src/core/cache/cache.go:71-78 | every live write is stored, and nothing is stored that was not the latest write |
| `ConcurrentCache.RefreshCanBeMissed` | src/core/cache/cache.go:42-60 | a Get can miss a key that was never removed and is live |
| `ConcurrentCache.LiveMissIffRefreshed` | src/core/cache/cache.go:40-63 | exactly so: a finished Get has missed a key live now iff the key was written since its read, by a write nobody has undone and whose time has not passed |
| `ConcurrentCache.UntouchedStays` | src/core/cache/cache.go:71-92 | only callers' steps on a key change what is written under it |
| `ConcurrentCache.WrittenAt` | src/core/cache/cache.go:71-78 | what is written under a key was written by a step that nobody has undone |
| `ConcurrentCache.EvictionRemovesExpired` | src/core/cache/cache.go:107-130 | in every interleaving an entry expired when evictExpired took the time, and not touched by a caller since, is gone when it is through |
| `ConcurrentCache.EvictionTakesTheTime` | src/core/cache/cache.go:108-108 | that time is the clock at its start |
| `ConcurrentCache.GetDropsExpired` | src/core/cache/cache.go:52-60 | a Get that found its key expired takes it away, unless it is live again |
| `ConcurrentCache.ScanWaits` | src/core/cache/cache.go:107-130 | between the regions of an eviction an untouched entry stays as it is or is gone |
| `Staleness.StepKeepsInv` | src/core/db/assistant.go:22-99 | database steps, fills, write-throughs, invalidations and cache steps keep every cached value one that was stored recently enough |
| `Staleness.InvHolds` | src/core/db/chats.go:33-67 | so in every interleaving in which fills follow their database step within d |
| `Staleness.HitIsRecent` | src/core/cache/cache.go:40-63 | a value a lookup would be given at T was stored no earlier than T - ttl - d |
| `Staleness.BoundedStaleness` | src/core/db/assistant.go:22-99 | every hit of every interleaving at time T serves a value stored at a moment no earlier than T - ttl - d and no later than the lookup |
| `Staleness.StalenessBoundIsTight` | src/core/db/assistant.go:46-99 | for all ttl and d a run serves at ttl + d a value last stored at 0: the bound is attained, and an invalidated value can come back |
| `Staleness.CoherentIffCovered` | src/core/db/assistant.go:22-99 | exactly when interleaved calls are coherent: at every moment a lookup of a key no unfinished call concerns gives the stored value or misses, iff every cache.Set comes while its value is still stored or another call on its key has its cache step to make |
| `Staleness.StepSettles` | src/core/db/chats.go:33-67 | a step so covered keeps what is cached for quiet keys equal to what is stored |
| `Staleness.UncoveredIsWrong` | src/core/db/assistant.go:42-55 | a cache.Set not so covered leaves a live wrong entry and nobody to settle it |
| `Staleness.WrongEntryIsServed` | src/core/db/assistant.go:22-26 | and any goroutine that looks it up is given it |
| `Staleness.CoveredHitsAreRight` | src/core/db/assistant.go:22-26 | in a covered run every finished hit served the value stored at its read, if its key was quiet then |
| `Staleness.AloneIsCovered` | src/core/db/assistant.go:22-114 | it is enough that calls on one key do not overlap, whatever calls on other keys do |
| `Staleness.FillIsRecent` | src/core/db/assistant.go:42-42 | a cache.Set within d of its database step caches something stored recently enough |
| `Staleness.OneCall` | src/core/db/assistant.go:22-99 | a call whose two steps nobody comes between: what it leaves in the collection and the cache |
| `Staleness.ReadFills` | src/core/db/assistant.go:22-43 | after a read alone the cache answers with what the collection holds, which is unchanged |
| `Staleness.WriteStores` | src/core/db/assistant.go:46-56 | after a write alone the collection holds the value, and a lookup gives it, or misses when the write invalidates |
| `Staleness.DeleteDeletes` | src/core/db/assistant.go:59-68 | after a deletion alone the key is in neither |
| `Staleness.WipeEmpties` | src/core/db/assistant.go:102-114 | after a wipe alone no key is |
| `Database.AssistantDb.constructor` | src/core/db/assistant.go:14-20 | an empty collection and cache agree |
| `Database.AssistantDb.GetAssistant` | src/core/db/assistant.go:22-43 | an answer is the stored assignment, -1 when there is none, whatever has expired; it fails iff the collection cannot be read and no live entry is cached; what was read is cached |
| `Database.AssistantDb.WriteThrough` | src/core/db/assistant.go:54-54 | caching the number just stored keeps cache and collection in agreement for every chat |
| `Database.AssistantDb.SetAssistant` | src/core/db/assistant.go:46-56 | stores the number for this chat only; a failed call changes nothing |
| `Database.AssistantDb.RemoveAssistant` | src/core/db/assistant.go:59-68 | deletes this chat's document and cached copy |
| `Database.AssistantDb.AssignAssistant` | src/core/db/assistant.go:71-99 | fills in a missing or -1 assignment, never replaces another, and on success returns the number that is stored |
| `Database.AssistantDb.ClearAllAssistants` | src/core/db/assistant.go:102-114 | empties collection and cache and returns how many there were |
| `Database.ChatDb.Fill` | src/core/db/chats.go:56-58 | caching the document just read keeps cache and collection in agreement |
| `Database.ChatDb.GetChat` | src/core/db/chats.go:33-67 | an answer is the stored document or its absence, and a stored one is then cached; it fails iff every attempt made has failed and no live entry is cached |
| `Database.ChatDb.AddChat` | src/core/db/chats.go:70-84 | adds an empty document only where there is none, and exactly then if the upsert works; a document that can be read is success without it |
| `Database.ChatDb.SetSetting` | src/core/db/chats.go:96-168 | updates one field of this chat's document and drops the cached copy |
| `Database.ChatDb.GetAdminMode` | src/core/db/chats.go:129-135 | the stored mode, or everyone when absent, empty or unreadable |
| `Database.ChatDb.GetAllChats` | src/core/db/chats.go:171-196 | every chat once in any cursor order, all cached and right; it fails iff the cursor cannot be had or breaks off, and leaves a right cache |
| `Database.Pull` | src/core/db/auth.go:36-48 | removes this user and nobody else |
| `Database.AddToSet` | src/core/db/auth.go:19-33 | the user is in the list afterwards, once if not before, behind those that were there, who stay |
| `Database.Setting.Apply` | src/core/db/chats.go:96-168 | exactly the field that is set changes |
| `Database.AuthDb.AddAuthUser` | src/core/db/auth.go:19-33 | adds the user to this chat's list once and drops the cached copy |
| `Database.AuthDb.RemoveAuthUser` | src/core/db/auth.go:36-48 | takes the user out of this chat's list and drops the cached copy |
| `Database.AuthDb.GetAuthUsers` | src/core/db/auth.go:51-69 | the stored list, which is then cached; an empty one only when there is none, or when the collection could not be read and no live entry was cached |
| `Database.AuthDb.IsAuthUser` | src/core/db/auth.go:72-84 | admins are authorised; others iff in the stored list, when it can be read |
| `Decimal.ToKeyInjective` | src/core/db/utilities.go:16-18 | different chats never share a cache key |
| `Decimal.DecRoundTrip` | src/core/db/utilities.go:16-18 | the digits of a number are worth the number |
| `Janitor.StepKeepsInv` | src/core/cache/cache.go:161-219 | every step of register, unregister and the workers keeps the life-cycle invariant |
| `Janitor.InvHolds` | src/core/cache/cache.go:161-219 | so in every interleaving |
| `Janitor.JanitorLifecycle` | src/core/cache/cache.go:161-219 | running iff the list is non-empty; no channel closed twice; a blocked worker holds the current or a closed channel; while running some worker is live and not about to be told to exit |
| `Janitor.CachesAreRegistered` | src/core/cache/cache.go:190-219 | the list is, as a multiset, what was registered and not unregistered |
| `Janitor.RunningIffRegistered` | src/core/cache/cache.go:190-219 | the janitor runs iff some registration has not been undone |
| `Janitor.RemoveFirstRemovesOne` | src/core/cache/cache.go:209-214 | splicing out the first match removes one occurrence |
| `Janitor.TwoWorkersCanServe` | src/core/cache/cache.go:161-200 | a restart can leave two live workers |
| `Janitor.SingleIffClean` | src/core/cache/cache.go:161-219 | exactly when there is one worker at most, over every run: iff every registration that starts a worker finds all earlier workers gone |
| `Janitor.StepKeepsOne` | src/core/cache/cache.go:190-200 | a step keeps that iff it is no registration that starts a second worker |
| `Janitor.SpliceOut` | src/core/cache/cache.go:209-214 | the loop removes the first match and nothing else |
| `Janitor.LockTakesTheRegistered` | src/core/cache/cache.go:168-176 | over every run: a worker whose ticker has fired takes as its list exactly what is registered, and goes back to its select when that is nothing |
| `Janitor.EvictsNext` | src/core/cache/cache.go:177-180 | a round evicts from the next cache on its list |
| `Janitor.FinishesSweep` | src/core/cache/cache.go:177-180 | a worker can finish its round, and then each cache on its list has been evicted from once, in order |
| `Janitor.GetsItsTick` | src/core/cache/cache.go:161-168 | a live worker can always come to its tick again |
| `Janitor.EveryCacheCanBeSwept` | src/core/cache/cache.go:161-184 | from every run with something registered some continuation evicts from every registered cache, as often as it is registered |
| `Janitor.IdleWorkersCanExit` | src/core/cache/cache.go:161-167 | when nothing is registered every worker can take notice and exit |
| `Janitor.JanitorObject.Register` | src/core/cache/cache.go:190-200 | the fields change as one step of the machine, which keeps the invariant |
| `Janitor.JanitorObject.Unregister` | src/core/cache/cache.go:206-219 | the same for unregister, with the channel closed at most once |
| `Assistants.AssistantPool.constructor` | src/vc/start.go:16-19 | no clients: the keys are the empty range |
| `Assistants.AssistantPool.StartClient` | src/vc/start.go:16-105 | only a session that gets all the way takes an index, len(uBContext), so the keys stay 0..n-1 over any starts and failures |
| `Assistants.AssistantPool.Len` | src/vc/start.go:17-19 | the number of clients is the length of the map |
| `Assistants.AssistantPool.GetClientIndex` | src/vc/calls.go:48-87 | with a client there is always an index, and it resolves; a readable assignment in range is returned unchanged; a draw is written to a vacant assignment only, and then is what is stored |
| `Assistants.AssistantPool.GetGroupAssistant` | src/vc/calls.go:90-104 | succeeds iff there is a client; sticks to the assignment; other chats are untouched |
| `Assistants.AssistantPool.UpdateMembership` | src/vc/helpers.go:176-182 | records exactly this status for this chat and user; every other record stays |
| `Assistants.AssistantPool.UpdateInviteLink` | src/vc/helpers.go:185-192 | an empty link forgets, another is recorded; every other chat's link stays |
| `Assistants.AssistantPool.CheckUserStats` | src/vc/userbot.go:154-174 | the recorded membership or Telegram's, an unknown participant counting as left |
| `Assistants.AssistantPool.ResolveInviteLink` | src/vc/userbot.go:198-220 | a recorded or newly made link, never empty; it fails only if none could be made |
| `Assistants.AssistantPool.HandleJoinError` | src/vc/userbot.go:223-254 | no error iff the request is approved or the membership exists; an expired or private link is forgotten |
| `Assistants.AssistantPool.JoinUb` | src/vc/userbot.go:177-195 | given a link, a recorded one standing in for none answered, Telegram is asked to join by it, and the outcome is that of joining; success is recorded as membership |
| `Assistants.AssistantPool.RecoverBanned` | src/vc/userbot.go:65-101 | needs the right to restrict; then a banned assistant is unbanned and joins, a muted one is left alone |
| `Assistants.AssistantPool.Admit` | src/vc/userbot.go:35-61 | what each membership leads to: the acts on Telegram, and success iff they admit the assistant |
| `Assistants.AssistantPool.Refuse` | src/vc/userbot.go:241-249 | a refused link is forgotten and this status recorded |
| `Assistants.AssistantPool.Forget` | src/vc/calls.go:123-128 | RemoveAssistant: no assignment is left when the deletion works, and other chats keep theirs |
| `Assistants.AssistantPool.EnsureMember` | src/vc/userbot.go:27-62 | succeeds iff the membership seen, recorded and live or else answered, and the answers admit the assistant; Telegram is asked for exactly the acts that takes |
| `Assistants.AssistantPool.Settle` | src/vc/userbot.go:119-136 | a failed join leaves no recorded membership and no assignment; a success is stored |
| `Assistants.AssistantPool.JoinAssistant` | src/vc/userbot.go:105-137 | all of that: success iff admitted, with exactly those acts; success fixes the index later lookups return; failure forgets; every other chat keeps its assignment, invite link and memberships |
| `Assistants.AssistantPool.Acquire` | src/vc/calls.go:139-153 | what play needs first: the assistant assigned or drawn, and membership in a group, as joining goes; other chats keep theirs |
| `Assistants.AssistantPool.JoinWith` | src/vc/userbot.go:117-136 | JoinAssistant once the index is known |
| `Assistants.AssistantPool.Perform` | src/vc/calls.go:48-104 | one start, lookup or join keeps a chat's readable assignment in range and uses it; only a failed join of that chat removes it |
| `Assistants.AssistantPool.PerformAll` | src/vc/userbot.go:105-137 | over any sequence of them, every lookup and join of the chat uses the assigned index until a failed join removes the assignment |
| `Assistants.AssistantPool.JoinThenPerform` | src/vc/userbot.go:105-137 | a stored success fixes the index that all of them return |
| `Assistants.DrawnOf` | src/vc/calls.go:66-82 | the index drawn, or the first when drawing fails; every client can be drawn |
| `Assistants.StatusKeyInjective` | src/vc/userbot.go:124-124 | different chats or users never share a membership record |
| `Assistants.ElsewhereIsOtherChats` | src/vc/userbot.go:124-124 | the record of a chat and user is among those of exactly that chat |
| `Assistants.ElsewhereKept` | src/vc/helpers.go:176-182 | changing one membership changes none in other chats |
| `P2PCall.InitEstablishesInv` | src/vc/ubot/connect_call.go:20-39 | the invariant holds before connectCall, in both roles |
| `P2PCall.ConnectStepKeepsInv` | src/vc/ubot/connect_call.go:20-134 | every step of connectCall, succeeding or failing, keeps it |
| `P2PCall.HandlerStepKeepsInv` | src/vc/ubot/handle_updates.go:31-104 | every update keeps it, in whatever order |
| `P2PCall.InvHolds` | src/vc/ubot/connect_call.go:20-134 | so over every interleaving |
| `P2PCall.HandshakeSafety` | src/vc/ubot/connect_call.go:50-134 | the configuration read is there; InitExchange is given the peer's hash, or nothing when we call; what we request or accept with is our own half; the call accepted is recorded; confirmation comes after g_b replaced GAorB and went into the key exchange with the call recorded; ConnectP2P comes after the exchange with PhoneCall set; in both roles |
| `P2PCall.HandshakeCompletes` | src/vc/ubot/connect_call.go:73-134 | in both roles the call gets connected when every step works and the peer answers |
| `P2PCall.OutgoingLeavesNothing` | src/vc/ubot/connect_call.go:20-32 | after an outgoing call neither map ever has an entry for the chat again |
| `P2PCall.EveryExitCleansUp` | src/vc/ubot/connect_call.go:20-32 | every exit in either role leaves neither entry; only a later incoming request makes one |
| `P2PCall.ExitStepCleansUp` | src/vc/ubot/connect_call.go:26-32 | the step that leaves connectCall removes the configuration |
| `P2PCall.OnlyRequestsReconfigure` | src/vc/ubot/handle_updates.go:91-101 | no other update makes a configuration |
| `P2PCall.LateSendersStayBlocked` | src/vc/ubot/handle_updates.go:78-90 | handlers still sending after the select are never released |
| `P2PCall.ReturnsIffTaken` | src/vc/ubot/handle_updates.go:76-90 | of all handlers that ever come to their send, exactly the one connectCall received from has returned |
| `P2PCall.ReturnsIffHeard` | src/vc/ubot/handle_updates.go:76-90 | exactly which blocked handlers may yet return: those sending on the call's own channel while connectCall has not left its select |
| `P2PCall.UnheardStaysBlocked` | src/vc/ubot/connect_call.go:92-99 | whatever happens, no other ever does |
| `P2PCall.HeardCanReturn` | src/vc/ubot/connect_call.go:34-99 | and such a one does in some continuation |
| `P2PCall.LateDiscardBlocks` | src/vc/ubot/handle_updates.go:78-90 | in either role, the handler of a hang-up during the call is blocked for good |
| `P2PCall.StepOnSenders` | src/vc/ubot/connect_call.go:92-99 | a step adds one sending handler at most, or receives from one and leaves the select |
| `P2PCall.StepKeepsInv` | src/vc/ubot/connect_call.go:20-134 | every step of either side keeps the invariant |
| `P2PCall.FailureEnds` | src/vc/ubot/connect_call.go:20-134 | every failure of every step ends the call as failed with both entries gone, and the end of a connected call ends it well |
| `P2PCall.RequestMakesReady` | src/vc/ubot/handle_updates.go:91-101 | a PhoneCallRequested update of an unknown peer makes all that an incoming connectCall starts from |
| `P2PCall.RequestKeepsConfig` | src/vc/ubot/handle_updates.go:91-101 | a second one, or one whose configuration fails, records the call and keeps the configurations |
| `P2PCall.UpdatesRecordCall` | src/vc/ubot/handle_updates.go:38-63 | the updates that carry a call's ID record it for the other party |
| `P2PCall.DiscardEndsCall` | src/vc/ubot/handle_updates.go:78-90 | a hang-up that connectCall hears fails the call, and its handler then forgets the call and is not blocked |
| `P2PCall.IdleDiscardForgets` | src/vc/ubot/handle_updates.go:78-90 | a hang-up of a call without a configuration only forgets it |
| `Participants.MentionSettles` | src/vc/ubot/handle_updates.go:116-164 | one mention settles its participant, each device unless its video is nameless and unrecorded, and changes no other participant |
| `Participants.DeviceStepSettles` | src/vc/ubot/handle_updates.go:127-163 | the same for one device |
| `Participants.LastMentionWins` | src/vc/ubot/handle_updates.go:116-164 | after any list, repetitions and empty endpoints included, each participant agrees with its last mention (gone from all maps, or listed with a source recorded exactly for each video) iff that mention had no nameless video that nothing was recorded for; the unmentioned are unchanged |
| `Participants.RecordedIffPresent` | src/vc/ubot/handle_updates.go:116-164 | the same for each device by itself |
| `Participants.NamedMentionWins` | src/vc/ubot/handle_updates.go:116-164 | so a last mention whose videos are named wins, whatever came before |
| `Participants.EmptyEndpointIsNotRecorded` | src/vc/ubot/handle_updates.go:127-138 | a first video with an empty endpoint is not recorded |
| `Participants.DeviceStepMatches` | src/vc/ubot/handle_updates.go:130-163 | one device's update keeps removals and recorded sources in line with what was added |
| `Participants.RemovalsNameTheLastAdded` | src/vc/ubot/handle_updates.go:130-163 | RemoveIncomingVideo only names the endpoint last added for that participant and device |
| `Participants.LastMentionAsks` | src/vc/ubot/handle_updates.go:116-164 | after any list the latest binding call for a device is what its participant's last mention asks for: to add a video that was not recorded, to remove the recorded endpoint of one that is no more, or else what it was before |
| `Participants.MentionAsks` | src/vc/ubot/handle_updates.go:116-164 | one mention asks the binding for that, and nothing for other participants |
| `Participants.DeviceStepAsks` | src/vc/ubot/handle_updates.go:127-163 | the same for one device |
| `Participants.BindingFollowsRecord` | src/vc/ubot/handle_updates.go:116-164 | a recorded video that the last mention lacks is removed by its endpoint; and the latest call is an addition iff a source is recorded, exactly unless that mention had a nameless video or lacked one left behind by a departure |
| `Participants.LeaverIsStillReceived` | src/vc/ubot/handle_updates.go:116-124 | a participant that leaves with its camera on and comes back without: nothing is recorded, and the binding is never asked to remove the camera |
| `Participants.RecordedWasShown` | src/vc/ubot/handle_updates.go:127-163 | a recorded endpoint was recorded before or is one that a mention of its participant showed on that device |
| `Participants.CallContext.UpdateDevice` | src/vc/ubot/handle_updates.go:127-163 | the maps and binding calls change as in DeviceStep; other chats are untouched |
| `Participants.CallContext.UpdateParticipant` | src/vc/ubot/handle_updates.go:116-164 | as in Mention, other chats untouched |
| `Participants.CallContext.OnParticipants` | src/vc/ubot/handle_updates.go:106-164 | as in MentionAll for the whole list, other chats untouched; so all of the above is about it |
| `Participants.CallContext.UpdateSources` | src/vc/ubot/update_sources.go:16-52 | recorded sources are kept, every named video gets one unless a call fails, nothing else gets one, and recorded sources stay the endpoints last added; the first call that fails is the last one made, and the result says whether one did |
| `Participants.CallContext.AddAll` | src/vc/ubot/update_sources.go:28-48 | the loop, for a chat with a record of sources |
| `Participants.CallContext.MakeSources` | src/vc/ubot/update_sources.go:22-27 | a missing record is made empty, a present one kept |
| `Participants.CallContext.AddParticipant` | src/vc/ubot/update_sources.go:28-45 | the same for one participant |
| `Participants.CallContext.AddSource` | src/vc/ubot/update_sources.go:31-37 | one device: a source is recorded and announced iff there is a video and no source yet; it fails iff the announcement does |
| `Participants.AddSourceStepKeeps` | src/vc/ubot/update_sources.go:31-45 | that keeps every source, adds only this video, and keeps recorded sources the endpoints last added |
| `Durations.Atoi` | src/core/dl/youtube_search.go:517-525 | the value of the digits, other characters skipped, wrapped at 64 bits |
| `Durations.Split` | src/core/dl/youtube_search.go:430-430 | the parts hold no colon |
| `Durations.JoinOfSplit` | src/core/dl/youtube_search.go:430-430 | and joined by colons they are the text again |
| `Durations.RightToLeftIsBase60` | src/core/dl/youtube_search.go:429-437 | right to left with a wrapping multiplier is base 60, wrapped once |
| `Durations.HornerIsBase60` | src/core/dl/youtube_search.go:440-451 | so is the wrapping Horner scheme |
| `Durations.ParseDuration` | src/core/dl/youtube_search.go:429-437 | the base-60 value of the parts' digits |
| `Durations.ParseTimeToSeconds` | src/core/dl/youtube_search.go:440-451 | the base-60 value of the parts, 0 if some part is no number in range |
| `Durations.ParsersAgree` | src/core/dl/youtube_search.go:429-451 | on every colon-separated list of digit strings in integer range, even where the result wraps |
| `Durations.RoundTripBelowADay` | src/utils/durations.go:109-128 | both parsers give back what SecToMin printed |
| `Durations.DayFormIsNoTime` | src/core/dl/youtube_search.go:440-451 | from a day on parseTimeToSeconds gives 0 |
| `Durations.DayFormAsDuration` | src/core/dl/youtube_search.go:429-437 | from a day on parseDuration takes a day for a hundred hours |
| `Durations.RoundTripIffBelowADay` | src/utils/durations.go:109-128 | for every int, each parser gives n back iff 0 <= n < 86400 |
| `Durations.SecToMinInjective` | src/utils/durations.go:109-128 | different positive durations print differently, day form included |
| `Search.IsLiveNow` | src/core/dl/youtube_search.go:192-207 | true iff some badge says so |
| `Search.ParseVideo` | src/core/dl/youtube_search.go:162-183 | appends one track iff the renderer is not live and has an id, a title and a length; the track has its id, title, length, thumbnail, views and channel, and the address of that id |
| `Search.ParseResults` | src/core/dl/youtube_search.go:147-189 | the initial tracks followed by the first limit - initial ones of the unlimited pre-order collection, which CollectsAllInOrder describes, for every tree and map order |
| `Search.UpToConcat` | src/core/dl/youtube_search.go:147-189 | cutting at the limit branch by branch is cutting the whole once |
| `Search.FullStaysFull` | src/core/dl/youtube_search.go:154-159 | once the limit is reached the rest of a list adds nothing |
| `Search.LimitsArePrefixes` | src/core/dl/youtube_search.go:147-189 | started within the limit the result stays within it, and a smaller limit gives a prefix |
| `Search.TrackOfIsVideo` | src/core/dl/youtube_search.go:162-183 | what a renderer stands for: one playable track iff it is presentable, and with all it says |
| `Search.CollectedAreVideos` | src/core/dl/youtube_search.go:147-189 | every track collected is the video of a presentable renderer of the tree |
| `Search.CollectsAllInOrder` | src/core/dl/youtube_search.go:147-189 | exactly what is collected, with no mention of the walk: one video for each position of a presentable renderer that no other renderer hides, in the order of the positions |
| `Search.NothingIsMissed` | src/core/dl/youtube_search.go:147-189 | so no presentable renderer is missed |
| `Search.FollowPath` | src/core/dl/youtube_search.go:469-491 | dig as the loop it is |
| `Search.DigFollows` | src/core/dl/youtube_search.go:469-491 | what dig gives, unless nil, is where the path leads, entry by entry |
| `Search.DigFinds` | src/core/dl/youtube_search.go:469-491 | and where a path leads dig gets |
| `Search.SaysLive` | src/core/dl/youtube_search.go:198-205 | whether one badge says so |
| `Search.OrderOnlyPermutes` | src/core/dl/youtube_search.go:147-189 | walking the maps in another order collects the same tracks, as often |
| `Search.TrackSame` | src/core/dl/youtube_search.go:162-183 | and gives each renderer the same track |
| `Search.LookupSame` | src/core/dl/youtube_search.go:469-491 | looking up a key does not depend on the order |
| `Search.DigSame` | src/core/dl/youtube_search.go:469-491 | nor does following a path |
| `OggPatch.Written` | src/core/dl/spotify_dl.go:174-178 | WriteAt changes the range written and pads a gap with zeros |
| `OggPatch.PatchesAreDisjoint` | src/core/dl/spotify_dl.go:163-173 | no two patches write the same byte |
| `OggPatch.Patched` | src/core/dl/spotify_dl.go:163-178 | every patch of the map is in, every other byte is as it was, and a gap reads as zeros |
| `OggPatch.OnePatchMore` | src/core/dl/spotify_dl.go:174-178 | one more patch, in any order, keeps those made and every other byte |
| `OggPatch.AllPatchesDone` | src/core/dl/spotify_dl.go:163-178 | that determines the file |
| `OggPatch.RebuildOgg` | src/core/dl/spotify_dl.go:149-182 | for every map order a run without errors gives Patched; a failed write leaves some patches in and nothing else changed |
| `OggPatch.OrderDoesNotMatter` | src/core/dl/spotify_dl.go:174-178 | every order of the patches gives the same bytes |
| `OggPatch.WriteInOrderPatches` | src/core/dl/spotify_dl.go:174-178 | any sequence of patches puts in exactly the patches it names |
| `OggPatch.PatchingIsIdempotent` | src/core/dl/spotify_dl.go:163-178 | patching twice is patching once |
| `OggPatch.FirstPageEndsAtTheSecond` | src/core/dl/spotify_dl.go:163-173 | by its own segment table the first page ends at 58, where the second capture pattern is |
| `OggPatch.FirstPageIdentifiesVorbis` | src/core/dl/spotify_dl.go:166-170 | that page holds a Vorbis identification header for 2 channels at 44100 Hz |
| `OggPatch.PagesStartAtZero` | src/core/dl/spotify_dl.go:164-173 | both pages have granule position 0, the second has version 0 and no flags, and the low half of the first page's serial number is 0 |
| `VideoSize.Fit` | src/vc/helpers.go:115-137 | even sides within the box and the original; the binding side is the largest even one, the other is within two below its exact value; unknown sizes give the full box |
| `VideoSize.WidthFits` | src/vc/helpers.go:117-119 | when the width binds the height is not scaled up |
| `VideoSize.HeightFits` | src/vc/helpers.go:121-124 | when the height binds the width fits too, and the original is at least as high |
| `VideoSize.OnePixelVanishes` | src/vc/helpers.go:126-131 | a 1 x 1 video is scaled to nothing |
| `VideoSize.PositiveIffNotDegenerate` | src/vc/helpers.go:126-131 | both sides are positive iff the original is at least 2 x 2 and not longer than 640 : 1 or 1 : 360 |

## Left out

- Telegram, the Mongo driver, HTTP, yt-dlp, ffmpeg, ffprobe, AES and the cgo binding: foreign code; their outcomes are arguments.
- Message texts, keyboards, permission filters, commands other than play, logging, configuration and the language, logger, blacklist and user stores: one-branch logic, or the same cache pattern again.
- Pause, resume, mute, seek, speed and the other one-call methods of src/vc/calls.go.
- "Playing implies a non-empty queue" is not claimed: a failed attempt clears the chat before the rotation goes on (src/vc/calls.go:123-129, 148, 158).
- `ChatQueue.ChatCacher`: every method holds the mutex throughout, so methods are atomic and the lock is not modelled; the `ChatData` record is replaced by its slice.
- `ChatQueue.Track`: the fields the queue and the engine do not read (URL, thumbnail, user, views, channel, video flag, lyrics) are not there; the duration found by probing a file is an arbitrary number.
- `PlaybackSpec.PlaybackTrace`: holds for runs in which each PlayMedia call succeeds at once; a call that rotates or fails clears the queue, which `Playback.TelegramCalls.OnStreamEnd` reports as `cleared`, exactly when its first stream failed, if that was reached.
- `Handlers.HandleMedia`: the link and file look-ups are not part of it, and a duration looked up in the file is an arbitrary number.
- `Handlers.HandleMultipleTracks`: the recomputed total duration and the message are not part of it.
- `ConcurrentCache.GetIsExact`: the look at time.Now() inside a deleting region is one step with that region.
- `Staleness.BoundedStaleness`: one collection with one cache and one time to live; calls are their database step and their cache step, one at a time in a goroutine, so retries and conditional upserts appear as several calls.
- `ChatQueue.ChatCacher.AddSongs`: tracks are not nil. Go would let a caller queue a nil track, with which GetTrackIfExists panics; all callers queue tracks they have just built.
- `Janitor.EveryCacheCanBeSwept`: what one evictExpired removes is said by `TtlCache` and `ConcurrentCache`; that a worker is scheduled and its ticker fires is not claimed, only that it can be.
- `Database.ChatDb.SetSetting`: the four Set methods differ in their field only and are one method; getters other than GetAdminMode are left out.
- `Database.AuthDb.IsAuthUser`: IsAdmin's own list of admins is an argument.
- `Assistants.AssistantPool.StartClient`: starts are sequential, as each runs to its end before its client is entered; StopAllClients is left out.
- `Assistants.AssistantPool.ResolveInviteLink`: the rewriting of the link's prefix is left out.
- `Assistants.AssistantPool.EnsureMember`: a pointer to a creator or administrator status goes the default way, as in the source's type switch.
- `P2PCall.HandshakeSafety`: all updates for the peer belong to the one current call, and handlers of other calls are not followed to their sends; an update is atomic up to its channel send; the group-call branch of connectCall, signalling data and the binding's effects are left out.
- `Participants.LastMentionWins`: source groups and the time of the last update are left out.
- `Participants.CallContext.OnParticipants`: the handler's second loop, on our own muting and pending connections (src/vc/ubot/handle_updates.go:168-190), and the group-call map handler are left out; what GetParticipants returns is an argument of `UpdateSources`, which does not keep the muted-by-admin list either.
- `Search.ParseResults`: which tracks a limit keeps depends on the order the maps are walked in; the statement is for each order.
- `Durations.ParsersAgree`: parseLabelDuration and the duration fields of other result kinds are left out.
- `OggPatch.RebuildOgg`: opening and closing the file, and a write that fails half-way, are left out.
- `VideoSize.Fit`: scaling is exact in rationals; float64 rounding could differ by one at a boundary.

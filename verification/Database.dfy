/**
  The read-through and write-through caches of src/core/db, for calls that run one after the other. A
  collection is a map from _id to document. A driver call fails when its flag says so, and a failed
  call has not been applied. Entries may expire or be evicted at any time in between.
*/
module Database {
  import opened Common
  import opened Decimal
  import opened TtlCache

  datatype Result<+T> = Ok(value: T) | Err

  // ----- src/core/db/assistant.go -----

  /** A document of the assistant collection; `num` may be missing, and then decodes to 0. */
  datatype AssistantDoc = AssistantDoc(num: Option<int>)
  {
    function Decode(): int {
      if num.Some? then num.value else 0
    }
  }

  class AssistantDb {
    var assistantDB: map<int, AssistantDoc>
    const assistantCache: Cache<int>

    /** Whatever a cache hit would return is what the collection holds. */
    ghost predicate Coherent()
      reads this, assistantCache, assistantCache.clock
    {
      && assistantCache.Valid()
      && forall id: int :: ToKey(id) in assistantCache.written ==>
           id in assistantDB && assistantCache.written[ToKey(id)].Value == assistantDB[id].Decode()
    }

    /** The stored assignment; -1 when there is none. */
    function Assigned(chatID: int): int
      reads this
    {
      if chatID in assistantDB then assistantDB[chatID].Decode() else -1
    }

    /** The assignments of all the other chats. */
    ghost function Others(chatID: int): map<int, AssistantDoc>
      reads this
    {
      assistantDB - {chatID}
    }

    /** No document, no number in it, or the number -1: what AssignAssistant may fill in. */
    ghost predicate Vacant(chatID: int)
      reads this
    {
      chatID in assistantDB ==> assistantDB[chatID].num in {None, Some(-1)}
    }

    constructor (ttl: int, clock: Clock)
      ensures Coherent() && assistantDB == map[] && fresh(this) && fresh(assistantCache)
      ensures assistantCache.clock == clock
    {
      assistantDB := map[];
      assistantCache := new Cache(ttl, clock);
    }

    method GetAssistant(chatID: int, findOk: bool) returns (r: Result<int>)
      requires Coherent()
      modifies assistantCache, assistantCache.clock
      ensures Coherent() && old(assistantCache.clock.now) <= assistantCache.clock.now
      ensures r.Ok? ==> r.value == Assigned(chatID)
      ensures r.Err? <==> !findOk && !assistantCache.Live(ToKey(chatID))
      ensures r.Ok? && chatID in assistantDB ==> ToKey(chatID) in assistantCache.written
    {
      var key := ToKey(chatID);
      var cached := assistantCache.Get(key);
      if cached.Hit? {
        return Ok(cached.value);
      }
      if !findOk {
        return Err;
      }
      if chatID !in assistantDB {
        return Ok(-1);
      }
      var num := assistantDB[chatID].Decode();
      WriteThrough(chatID, num);
      r := Ok(num);
    }

    /** cache.Set after the collection already holds `num`. */
    method WriteThrough(chatID: int, num: int)
      requires assistantCache.Valid()
      requires forall id: int :: id != chatID && ToKey(id) in assistantCache.written ==>
                 id in assistantDB && assistantCache.written[ToKey(id)].Value == assistantDB[id].Decode()
      requires chatID in assistantDB && assistantDB[chatID].Decode() == num
      modifies assistantCache, assistantCache.clock
      ensures Coherent() && old(assistantCache.clock.now) <= assistantCache.clock.now
      ensures assistantCache.written ==
                old(assistantCache.written)[ToKey(chatID) := Item(num, assistantCache.clock.now + assistantCache.ttl)]
    {
      assistantCache.Set(ToKey(chatID), num);
      forall id: int | ToKey(id) in assistantCache.written
        ensures id in assistantDB && assistantCache.written[ToKey(id)].Value == assistantDB[id].Decode()
      {
        if ToKey(id) == ToKey(chatID) {
          ToKeyInjective(id, chatID);
        }
      }
    }

    method SetAssistant(chatID: int, num: int, updateOk: bool) returns (ok: bool)
      requires Coherent()
      modifies this, assistantCache, assistantCache.clock
      ensures Coherent() && old(assistantCache.clock.now) <= assistantCache.clock.now && ok == updateOk
      ensures assistantDB == if ok then old(assistantDB)[chatID := AssistantDoc(Some(num))] else old(assistantDB)
      ensures ok ==> ToKey(chatID) in assistantCache.written
    {
      if updateOk {
        assistantDB := assistantDB[chatID := AssistantDoc(Some(num))];
        WriteThrough(chatID, num);
      }
      ok := updateOk;
    }

    method RemoveAssistant(chatID: int, deleteOk: bool) returns (ok: bool)
      requires Coherent()
      modifies this, assistantCache, assistantCache.clock
      ensures Coherent() && old(assistantCache.clock.now) <= assistantCache.clock.now && ok == deleteOk
      ensures assistantDB == if ok then old(assistantDB) - {chatID} else old(assistantDB)
    {
      if deleteOk {
        assistantDB := assistantDB - {chatID};
        assistantCache.Delete(ToKey(chatID));
      }
      ok := deleteOk;
    }

    /**
      The conditional upsert. It fills in a vacant assignment and never replaces another one; when it
      succeeds it returns the number that is stored, whoever stored it.
    */
    method AssignAssistant(chatID: int, proposed: int, updateOk: bool, findOk: bool) returns (r: Result<int>)
      requires Coherent()
      modifies this, assistantCache, assistantCache.clock
      ensures Coherent() && old(assistantCache.clock.now) <= assistantCache.clock.now
      ensures assistantDB == if updateOk && old(Vacant(chatID))
                             then old(assistantDB)[chatID := AssistantDoc(Some(proposed))] else old(assistantDB)
      ensures r.Ok? ==> updateOk && chatID in assistantDB && r.value == Assigned(chatID)
      ensures r.Ok? ==> ToKey(chatID) in assistantCache.written
      ensures updateOk && (old(Vacant(chatID)) || findOk) && proposed != -1 ==> r.Ok?
    {
      if !updateOk {
        return Err;
      }
      if chatID in assistantDB && assistantDB[chatID].num in {None, Some(-1)} {
        // the filter matches
        var modified := assistantDB[chatID].num != Some(proposed);
        assistantDB := assistantDB[chatID := AssistantDoc(Some(proposed))];
        if modified {
          WriteThrough(chatID, proposed);
          return Ok(proposed);
        }
        r := GetAssistant(chatID, findOk);
      } else if chatID in assistantDB {
        // the filter does not match, and the upsert runs into the document with this _id
        r := GetAssistant(chatID, findOk);
      } else {
        assistantDB := assistantDB[chatID := AssistantDoc(Some(proposed))];
        WriteThrough(chatID, proposed);
        r := Ok(proposed);
      }
    }

    method ClearAllAssistants(deleteOk: bool) returns (r: Result<nat>)
      requires Coherent()
      modifies this, assistantCache, assistantCache.clock
      ensures Coherent() && old(assistantCache.clock.now) <= assistantCache.clock.now && r.Ok? == deleteOk
      ensures r.Ok? ==> assistantDB == map[] && r.value == |old(assistantDB)|
      ensures r.Err? ==> assistantDB == old(assistantDB)
    {
      if !deleteOk {
        return Err;
      }
      r := Ok(|assistantDB|);
      assistantDB := map[];
      assistantCache.Clear();
    }
  }

  // ----- src/core/db/chats.go -----

  /** A chat document as decoded; fields missing from the stored document read as zero values. */
  datatype Chats = Chats(PlayType: int, AdminPlay: bool, AdminMode: string, CmdDelete: bool)

  const EMPTY_CHAT := Chats(0, false, "", false)

  /** The one field a Set* method updates. */
  datatype Setting = PlayType(n: int) | PlayMode(b: bool) | AdminMode(mode: string) | CmdDelete(on: bool)
  {
    /** Exactly the field that is set changes. */
    function Apply(c: Chats): (r: Chats)
      ensures (if PlayType? then r.PlayType == this.n else r.PlayType == c.PlayType)
      ensures (if PlayMode? then r.AdminPlay == this.b else r.AdminPlay == c.AdminPlay)
      ensures (if AdminMode? then r.AdminMode == mode else r.AdminMode == c.AdminMode)
      ensures (if CmdDelete? then r.CmdDelete == this.on else r.CmdDelete == c.CmdDelete)
    {
      match this
      case PlayType(n) => c.(PlayType := n)
      case PlayMode(b) => c.(AdminPlay := b)
      case AdminMode(mode) => c.(AdminMode := mode)
      case CmdDelete(b) => c.(CmdDelete := b)
    }
  }

  const EVERYONE := "everyone"

  class ChatDb {
    var chatDB: map<int, Chats>
    const chatCache: Cache<Chats>

    ghost predicate Coherent()
      reads this, chatCache, chatCache.clock
    {
      && chatCache.Valid()
      && forall id: int :: ToKey(id) in chatCache.written ==>
           id in chatDB && chatCache.written[ToKey(id)].Value == chatDB[id]
    }

    ghost function Stored(chatID: int): Option<Chats>
      reads this
    {
      if chatID in chatDB then Some(chatDB[chatID]) else None
    }

    constructor (ttl: int, clock: Clock)
      ensures Coherent() && chatDB == map[]
    {
      chatDB := map[];
      chatCache := new Cache(ttl, clock);
    }

    /** cache.Set of the document just read. */
    method Fill(chatID: int)
      requires Coherent() && chatID in chatDB
      modifies chatCache, chatCache.clock
      ensures Coherent() && ToKey(chatID) in chatCache.written
      ensures forall k :: k in old(chatCache.written) ==> k in chatCache.written
    {
      chatCache.Set(ToKey(chatID), chatDB[chatID]);
      forall id: int | ToKey(id) in chatCache.written
        ensures id in chatDB && chatCache.written[ToKey(id)].Value == chatDB[id]
      {
        if ToKey(id) == ToKey(chatID) {
          ToKeyInjective(id, chatID);
        }
      }
    }

    /** Every attempt that is made fails: three, or fewer when the context runs out. */
    predicate AllFail(fails: nat -> bool, expired: nat -> bool) {
      fails(0) && (expired(0) || (fails(1) && (expired(1) || fails(2))))
    }

    /**
      Up to three attempts: `fails(i)` is a transient failure of the i-th, `expired(i)` says the context
      had run out by then. It answers from the store, and an error needs every attempt made to have failed.
    */
    method GetChat(chatID: int, fails: nat -> bool, expired: nat -> bool) returns (r: Result<Option<Chats>>)
      requires Coherent()
      modifies chatCache, chatCache.clock
      ensures Coherent()
      ensures r.Ok? ==> r.value == Stored(chatID)
      ensures r.Err? <==> AllFail(fails, expired) && !chatCache.Live(ToKey(chatID))
      ensures r.Ok? && chatID in chatDB ==> ToKey(chatID) in chatCache.written
    {
      var cached := chatCache.Get(ToKey(chatID));
      if cached.Hit? {
        return Ok(Some(cached.value));
      }
      for i := 0 to 3
        invariant forall j: nat | j < i :: fails(j) && !expired(j)
        invariant Coherent()
      {
        if !fails(i) {
          if chatID !in chatDB {
            return Ok(None);
          }
          Fill(chatID);
          return Ok(Some(chatDB[chatID]));
        }
        if expired(i) {
          return Err;
        }
      }
      r := Err;
    }

    /** Adds an empty document for a chat that has none, and never touches one that exists. */
    method AddChat(chatID: int, fails: nat -> bool, expired: nat -> bool, upsertOk: bool) returns (ok: bool)
      requires Coherent()
      modifies this, chatCache, chatCache.clock
      ensures Coherent()
      ensures (ok ==> chatID in chatDB) && (upsertOk ==> ok)
      ensures chatID in old(chatDB) && !AllFail(fails, expired) ==> ok
      ensures chatDB == if upsertOk && chatID !in old(chatDB) then old(chatDB)[chatID := EMPTY_CHAT] else old(chatDB)
    {
      var chat := GetChat(chatID, fails, expired);
      if chat.Ok? && chat.value.Some? {
        return true;
      }
      if upsertOk && chatID !in chatDB {
        chatDB := chatDB[chatID := EMPTY_CHAT];
      }
      ok := upsertOk;
    }

    /** SetPlayType, SetPlayMode, SetAdminMode, SetCmdDelete: upsert one field, then drop the cached copy. */
    method SetSetting(chatID: int, setting: Setting, updateOk: bool) returns (ok: bool)
      requires Coherent()
      modifies this, chatCache, chatCache.clock
      ensures Coherent() && ok == updateOk
      ensures chatDB == if ok then old(chatDB)[chatID := setting.Apply(
                          if chatID in old(chatDB) then old(chatDB)[chatID] else EMPTY_CHAT)] else old(chatDB)
      ensures ok ==> ToKey(chatID) !in chatCache.written
    {
      if updateOk {
        var doc := if chatID in chatDB then chatDB[chatID] else EMPTY_CHAT;
        chatDB := chatDB[chatID := setting.Apply(doc)];
        chatCache.Delete(ToKey(chatID));
      }
      ok := updateOk;
    }

    /** GetAdminMode: the stored mode; "everyone" for a chat without one, or when it cannot be read. */
    method GetAdminMode(chatID: int, fails: nat -> bool, expired: nat -> bool) returns (mode: string)
      requires Coherent()
      modifies chatCache, chatCache.clock
      ensures Coherent()
      ensures mode == (if Stored(chatID).None? || Stored(chatID).value.AdminMode == "" then EVERYONE
                       else Stored(chatID).value.AdminMode)
              || (AllFail(fails, expired) && !chatCache.Live(ToKey(chatID)) && mode == EVERYONE)
    {
      var chat := GetChat(chatID, fails, expired);
      if chat.Err? || chat.value.None? || chat.value.value.AdminMode == "" {
        return EVERYONE;
      }
      mode := chat.value.value.AdminMode;
    }

    /**
      The bulk fill: the cursor delivers the documents in any order and may break off (`cursorFails`);
      what was cached by then stays cached, and is right.
    */
    method GetAllChats(findOk: bool, cursorFails: int -> bool) returns (r: Result<seq<int>>)
      requires Coherent()
      modifies chatCache, chatCache.clock
      ensures Coherent()
      ensures r.Ok? ==> forall id :: id in r.value <==> id in chatDB
      ensures r.Ok? ==> forall i, j | 0 <= i < j < |r.value| :: r.value[i] != r.value[j]
      ensures r.Ok? ==> forall id | id in chatDB :: ToKey(id) in chatCache.written
      ensures r.Ok? <==> findOk && forall id | id in chatDB :: !cursorFails(id)
    {
      if !findOk {
        return Err;
      }
      var chats: seq<int> := [];
      var rest := chatDB.Keys;
      while rest != {}
        invariant rest <= chatDB.Keys && Coherent()
        invariant forall id :: id in chats <==> id in chatDB && id !in rest
        invariant forall i, j | 0 <= i < j < |chats| :: chats[i] != chats[j]
        invariant forall id | id in chats :: ToKey(id) in chatCache.written && !cursorFails(id)
        decreases rest
      {
        var id := PickAny(rest);
        if cursorFails(id) {
          return Err;
        }
        chats := chats + [id];
        Fill(id);
        rest := rest - {id};
      }
      r := Ok(chats);
    }
  }

  // ----- src/core/db/auth.go -----

  function AddToSet(users: seq<int>, user: int): (r: seq<int>)
    ensures forall u :: u in r <==> u in users || u == user
    ensures users <= r && (user in users ==> r == users)
    ensures (forall i, j | 0 <= i < j < |users| :: users[i] != users[j]) ==>
              forall i, j | 0 <= i < j < |r| :: r[i] != r[j]
  {
    if user in users then users else users + [user]
  }

  function Pull(users: seq<int>, user: int): (r: seq<int>)
    ensures forall u :: u in r <==> u in users && u != user
  {
    if users == [] then []
    else (if users[0] == user then [] else [users[0]]) + Pull(users[1..], user)
  }

  class AuthDb {
    var authDB: map<int, seq<int>>
    const authCache: Cache<seq<int>>

    ghost predicate Coherent()
      reads this, authCache, authCache.clock
    {
      && authCache.Valid()
      && forall id: int :: ToKey(id) in authCache.written ==>
           id in authDB && authCache.written[ToKey(id)].Value == authDB[id]
    }

    ghost function Users(chatID: int): seq<int>
      reads this
    {
      if chatID in authDB then authDB[chatID] else []
    }

    constructor (ttl: int, clock: Clock)
      ensures Coherent() && authDB == map[]
    {
      authDB := map[];
      authCache := new Cache(ttl, clock);
    }

    method AddAuthUser(chatID: int, userID: int, updateOk: bool) returns (ok: bool)
      requires Coherent()
      modifies this, authCache, authCache.clock
      ensures Coherent() && ok == updateOk
      ensures authDB == if ok then old(authDB)[chatID := AddToSet(old(Users(chatID)), userID)] else old(authDB)
      ensures ok ==> ToKey(chatID) !in authCache.written
    {
      if updateOk {
        authDB := authDB[chatID := AddToSet(if chatID in authDB then authDB[chatID] else [], userID)];
        authCache.Delete(ToKey(chatID));
      }
      ok := updateOk;
    }

    method RemoveAuthUser(chatID: int, userID: int, updateOk: bool) returns (ok: bool)
      requires Coherent()
      modifies this, authCache, authCache.clock
      ensures Coherent() && ok == updateOk
      ensures authDB == if ok && chatID in old(authDB)
                        then old(authDB)[chatID := Pull(old(authDB)[chatID], userID)] else old(authDB)
    {
      if updateOk {
        if chatID in authDB {
          authDB := authDB[chatID := Pull(authDB[chatID], userID)];
        }
        authCache.Delete(ToKey(chatID));
      }
      ok := updateOk;
    }

    /** The stored list; empty when the chat has none, or when the collection had to be asked and failed. */
    method GetAuthUsers(chatID: int, findOk: bool) returns (users: seq<int>)
      requires Coherent()
      modifies authCache, authCache.clock
      ensures Coherent()
      ensures users == Users(chatID) || (!findOk && users == [])
      ensures authCache.Live(ToKey(chatID)) ==> users == Users(chatID)
      ensures findOk && chatID in authDB ==> ToKey(chatID) in authCache.written
    {
      var cached := authCache.Get(ToKey(chatID));
      if cached.Hit? {
        return cached.value;
      }
      if !findOk || chatID !in authDB {
        return [];
      }
      users := authDB[chatID];
      authCache.Set(ToKey(chatID), users);
      forall id: int | ToKey(id) in authCache.written
        ensures id in authDB && authCache.written[ToKey(id)].Value == authDB[id]
      {
        if ToKey(id) == ToKey(chatID) {
          ToKeyInjective(id, chatID);
        }
      }
    }

    /** `admins` is the answer of GetChatAdminIDs, empty when that failed. */
    method IsAuthUser(chatID: int, userID: int, admins: seq<int>, findOk: bool) returns (auth: bool)
      requires Coherent()
      modifies authCache, authCache.clock
      ensures Coherent()
      ensures auth ==> userID in admins || userID in Users(chatID)
      ensures userID in admins || (findOk && userID in Users(chatID)) ==> auth
    {
      if userID in admins {
        return true;
      }
      var users := GetAuthUsers(chatID, findOk);
      auth := userID in users;
    }
  }
}

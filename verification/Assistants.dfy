/**
  The pool of assistant clients and the assignment of chats to them: src/vc/start.go, getClientIndex and
  GetGroupAssistant of src/vc/calls.go, and src/vc/userbot.go. What Telegram answers is an argument.
*/
module Assistants {
  import opened Common
  import opened Decimal
  import opened TtlCache
  import opened Database

  /** An error text: which of the markers the code looks for it contains. */
  datatype Message = Message(
    FROZEN_METHOD_INVALID: bool, CHANNELS_TOO_MUCH: bool, FLOOD_WAIT_X: bool, IS_CLOSED: bool,
    USER_NOT_PARTICIPANT: bool, INVITE_REQUEST_SENT: bool, USER_ALREADY_PARTICIPANT: bool,
    INVITE_HASH_EXPIRED: bool, CHANNEL_PRIVATE: bool)

  const NO_MARKER := Message(false, false, false, false, false, false, false, false, false)

  datatype Reply<+T> = Got(value: T) | Failed(msg: Message)

  /** A td.ChatMemberStatus; the type switch treats pointers and values differently. */
  datatype Status = Status(kind: Kind, pointer: bool)
  datatype Kind = Member | Creator | Administrator | Left | Banned | Restricted

  const MEMBER := Status(Member, true)

  datatype Client = Client(id: int)

  /** How far StartClient gets with one session string. */
  datatype StartOutcome =
    | BadSession | UnsupportedSession | NoMtProto | NotStarted | IsBot | Frozen | NoInstance | Started(me: int)

  /** What Telegram answers during one JoinAssistant. */
  datatype Answers = Answers(
    member: Reply<Status>,          // GetChatMember for the assistant
    botCanRestrict: Reply<bool>,    // the bot's own rights
    inviteLink: Reply<string>,      // CreateChatInviteLink
    join: Reply<()>,                // JoinChannel
    approve: Reply<()>              // ProcessChatJoinRequest
  )

  /** Which of the database calls of one operation succeed, and what rand.Int draws: None is an error. */
  datatype DbFaults = DbFaults(find: bool, update: bool, findAgain: bool, set_: bool, remove: bool, draw: Option<nat>)

  /** What the assistant and the bot do in a chat to get the assistant in. */
  datatype TgAct =
    | Unban(chatID: int, userID: int)                      // SetChatMemberStatus
    | JoinChannel(chatID: int, userID: int, link: string)
    | Approve(chatID: int, userID: int)                    // ProcessChatJoinRequest

  /** Telegram, as far as it is acted on; what it answers is an argument of the calls. */
  class Telegram {
    var acts: seq<TgAct>

    constructor ()
      ensures acts == []
    {
      acts := [];
    }

    method Act(act: TgAct)
      modifies this
      ensures acts == old(acts) + [act]
    {
      acts := acts + [act];
    }
  }

  /** fmt.Sprintf("%d:%d", chatID, userID) */
  function StatusKey(chatID: int, userID: int): string {
    ToKey(chatID) + ":" + ToKey(userID)
  }

  lemma NoColonInKey(id: int)
    ensures ':' !in ToKey(id)
  {
    var digits := Dec(if id < 0 then -id else id);
    assert forall i | 0 <= i < |digits| :: IsDigit(digits[i]);
  }

  lemma FirstColon(a: string, b: string)
    requires ':' !in a
    ensures (a + ":" + b)[|a|] == ':' && forall i | 0 <= i < |a| :: (a + ":" + b)[i] != ':'
  {
    assert forall i | 0 <= i < |a| :: (a + ":" + b)[i] == a[i];
  }

  /** What stands before the first colon of a + ":" + b is a. */
  lemma BeforeColon(a: string, b: string, c: string, d: string)
    requires ':' !in a && ':' !in c && a + ":" + b == c + ":" + d
    ensures a == c && b == d
  {
    FirstColon(a, b);
    FirstColon(c, d);
    var t := a + ":" + b;
    assert |a| == |c|;
    assert a == t[..|a|] && c == t[..|c|];
    assert b == t[|a| + 1..] && d == t[|c| + 1..];
  }

  /** Different chats or users never share an entry. */
  lemma StatusKeyInjective(chat: int, user: int, chat': int, user': int)
    requires StatusKey(chat, user) == StatusKey(chat', user')
    ensures chat == chat' && user == user'
  {
    NoColonInKey(chat);
    NoColonInKey(chat');
    BeforeColon(ToKey(chat), ToKey(user), ToKey(chat'), ToKey(user'));
    ToKeyInjective(chat, chat');
    ToKeyInjective(user, user');
  }

  // ----- what the answers amount to -----

  /** The status that GetChatMember's answer stands for: an unknown user has left. */
  function Checked(ans: Answers): Reply<Status> {
    if ans.member.Failed? && ans.member.msg.USER_NOT_PARTICIPANT then Got(Status(Left, true)) else ans.member
  }

  predicate LinkAnswered(ans: Answers) {
    ans.inviteLink.Got? && ans.inviteLink.value != ""
  }

  /** Over a call that lasts from `from` to `to`: recorded, and not expired in the meantime. */
  ghost predicate StaysLive<T>(written: map<string, Item<T>>, key: string, to: int) {
    key in written && to <= written[key].Expiration
  }

  ghost predicate NeverLive<T>(written: map<string, Item<T>>, key: string, from: int) {
    key in written ==> written[key].Expiration < from
  }

  /** The membership as it is recorded in `written`, while that lasts, and as Telegram tells it after. */
  ghost predicate Seen(written: map<string, Item<Status>>, key: string, from: int, to: int, ans: Answers, seen: Reply<Status>) {
    && (seen == Checked(ans) || (key in written && seen == Got(written[key].Value)))
    && (StaysLive(written, key, to) ==> seen == Got(written[key].Value))
    && (NeverLive(written, key, from) ==> seen == Checked(ans))
  }

  /** The invite link as it is recorded, unless empty, while that lasts, and a new one after; None: there is none. */
  ghost predicate Linked(written: map<string, Item<string>>, key: string, from: int, to: int, ans: Answers, link: Option<string>) {
    && (link.Some? ==> link.value != "")
    && (link == NewLink(ans) || (key in written && link == Some(written[key].Value)))
    && (StaysLive(written, key, to) && written[key].Value != "" ==> link == Some(written[key].Value))
    && (NeverLive(written, key, from) ==> link == NewLink(ans))
  }

  function NewLink(ans: Answers): Option<string> {
    if LinkAnswered(ans) then Some(ans.inviteLink.value) else None
  }

  /** Errors of JoinChannel that are none: an approved request, or a membership that exists. */
  predicate Excused(msg: Message, ans: Answers) {
    if msg.INVITE_REQUEST_SENT then ans.approve.Got? else msg.USER_ALREADY_PARTICIPANT
  }

  /** Is the assistant in, after JoinChannel with a link? */
  predicate Joined(ans: Answers) {
    ans.join.Got? || Excused(ans.join.msg, ans)
  }

  /** Nothing needs to be done for this status. */
  predicate IsIn(st: Status) {
    st.kind.Member? || (!st.pointer && (st.kind.Creator? || st.kind.Administrator?))
  }

  /** Does this status call for a join, over an invite link? */
  predicate NeedsLink(st: Status) {
    !IsIn(st) && !st.kind.Restricted?
  }

  /** With this status and these answers the assistant may play. */
  predicate Admitted(st: Status, ans: Answers) {
    && (st.kind.Banned? || st.kind.Restricted? ==> ans.botCanRestrict == Got(true))
    && (NeedsLink(st) ==> Joined(ans))
  }

  /** What joining over a link takes. */
  function JoinActs(chatID: int, userID: int, ans: Answers, link: Option<string>): seq<TgAct> {
    if link.None? then []
    else if ans.join.Failed? && ans.join.msg.INVITE_REQUEST_SENT then
      [JoinChannel(chatID, userID, link.value), Approve(chatID, userID)]
    else [JoinChannel(chatID, userID, link.value)]
  }

  /** How joinAssistant went: the membership it saw, and the link it used if it had to join and there was one. */
  datatype Joining = Joining(seen: Reply<Status>, link: Option<string>)
  {
    /** May the assistant play then? */
    predicate Admits(ans: Answers) {
      seen.Got? && Admitted(seen.value, ans) && (NeedsLink(seen.value) ==> link.Some?)
    }

    predicate MayJoin(ans: Answers) {
      seen.Got? && NeedsLink(seen.value) && (seen.value.kind.Banned? ==> ans.botCanRestrict == Got(true))
    }

    /** What was done for it: a ban is lifted first, if the bot may. */
    function Acts(chatID: int, userID: int, ans: Answers): seq<TgAct> {
      if !MayJoin(ans) then []
      else if seen.value.kind.Banned? then [Unban(chatID, userID)] + JoinActs(chatID, userID, ans, link)
      else JoinActs(chatID, userID, ans, link)
    }
  }

  /** Is this the key of a membership in this chat? By ElsewhereIsOtherChats, of no other chat then. */
  ghost predicate InChat(key: string, chatID: int) {
    ToKey(chatID) + ":" <= key
  }

  ghost function Elsewhere(written: map<string, Item<Status>>, chatID: int): map<string, Item<Status>> {
    map k | k in written && !InChat(k, chatID) :: written[k]
  }

  lemma ElsewhereIsOtherChats(chat: int, user: int, chatID: int)
    ensures InChat(StatusKey(chat, user), chatID) <==> chat == chatID
  {
    NoColonInKey(chat);
    NoColonInKey(chatID);
    var key, start := StatusKey(chat, user), ToKey(chatID) + ":";
    if start <= key {
      assert key == ToKey(chatID) + ":" + key[|start|..];
      BeforeColon(ToKey(chat), ToKey(user), ToKey(chatID), key[|start|..]);
      ToKeyInjective(chat, chatID);
    }
  }

  /** What changes one chat's one membership changes nothing elsewhere. */
  lemma ElsewhereKept(before: map<string, Item<Status>>, now: map<string, Item<Status>>, chatID: int, userID: int)
    requires before - {StatusKey(chatID, userID)} == now - {StatusKey(chatID, userID)}
    ensures Elsewhere(before, chatID) == Elsewhere(now, chatID)
  {
    ElsewhereIsOtherChats(chatID, userID, chatID);
    var key := StatusKey(chatID, userID);
    forall k | k != key
      ensures (k in before <==> k in now) && (k in now ==> before[k] == now[k])
    {
      assert k in before <==> k in before - {key};
      assert k in now <==> k in now - {key};
      assert k in now ==> now[k] == (now - {key})[k];
    }
  }

  lemma {:induction false} RangeCard(s: set<int>, n: nat)
    requires forall i :: i in s <==> 0 <= i < n
    ensures |s| == n
  {
    if n == 0 {
      assert forall i | i in s :: false;
    } else {
      RangeCard(s - {n - 1}, n - 1);
    }
  }

  /** The assignments, invite links and memberships of some chats. */
  datatype OtherChats =
    OtherChats(assignments: map<int, AssistantDoc>, links: map<string, Item<string>>, statuses: map<string, Item<Status>>)

  /** What Telegram and the database answer during one attempt to play. */
  datatype Attempt = Attempt(dbf: DbFaults, ans: Answers, joinDbf: DbFaults, stream: Reply<()>, deleteOk: bool)

  /** With these answers the assistant gets in, whatever is on record about it. */
  predicate LetsIn(ans: Answers) {
    ans.member == Got(MEMBER) && ans.botCanRestrict == Got(true) && LinkAnswered(ans) && Joined(ans)
  }

  /** The index that a draw among `n` clients gives: the first when it fails. */
  function DrawnOf(draw: Option<nat>, n: nat): (i: int)
    requires n > 0
    ensures 0 <= i < n && (draw == None ==> i == 0)
    ensures forall k: nat :: draw == Some(k) && k < n ==> i == k
  {
    if draw.None? then 0 else draw.value % n
  }

  /** One call on the pool. */
  datatype PoolCall =
    | Start(outcome: StartOutcome)
    | LookUp(chatID: int, dbf: DbFaults)
    | Join(chatID: int, ans: Answers, dbf: DbFaults)
  {
    predicate Readable() {
      Start? || dbf.find
    }

    predicate Concerns(chat: int) {
      !Start? && chatID == chat
    }
  }

  /** How many of the calls look this chat up. */
  function CallsOf(calls: seq<PoolCall>, chatID: int): nat {
    if calls == [] then 0 else (if calls[0].Concerns(chatID) then 1 else 0) + CallsOf(calls[1..], chatID)
  }

  ghost predicate KeptAt(now: map<int, AssistantDoc>, chatID: int, before: map<int, AssistantDoc>) {
    (chatID in now <==> chatID in before) && (chatID in now ==> now[chatID] == before[chatID])
  }

  class AssistantPool {
    var uBContext: map<int, Client>

    // How many clients there are; their indices are below it.
    ghost var Count: nat

    const db: AssistantDb
    const statusCache: Cache<Status>
    const inviteCache: Cache<string>
    const telegram: Telegram

    ghost function Repr(): set<object> {
      {this, telegram, statusCache, statusCache.clock, inviteCache, inviteCache.clock, db, db.assistantCache, db.assistantCache.clock}
    }

    /** The context keys are exactly 0 .. Count-1. */
    ghost predicate Contiguous()
      reads this
    {
      forall i :: i in uBContext <==> 0 <= i < Count
    }

    ghost predicate Valid()
      reads this, db, db.assistantCache, db.assistantCache.clock, statusCache, statusCache.clock, inviteCache, inviteCache.clock
    {
      && Contiguous() && db.Coherent() && statusCache.Valid() && inviteCache.Valid()
      && db.assistantCache.clock == statusCache.clock == inviteCache.clock
      && statusCache as object != inviteCache && statusCache as object != db.assistantCache
      && inviteCache as object != db.assistantCache
    }

    /** The recorded memberships but this one. */
    ghost function OtherStatuses(chatID: int, userID: int): map<string, Item<Status>>
      reads statusCache
    {
      statusCache.written - {StatusKey(chatID, userID)}
    }

    /** The recorded invite links of all the other chats. */
    ghost function OtherLinks(chatID: int): map<string, Item<string>>
      reads inviteCache
    {
      inviteCache.written - {ToKey(chatID)}
    }

    /** What is kept of all the other chats. */
    ghost function Rest(chatID: int): OtherChats
      reads db, statusCache, inviteCache
    {
      OtherChats(db.Others(chatID), OtherLinks(chatID), Elsewhere(statusCache.written, chatID))
    }

    constructor (clock: Clock)
      ensures Valid() && uBContext == map[] && Count == 0 && db.assistantDB == map[]
      ensures fresh(Repr() - {clock})
    {
      uBContext, Count := map[], 0;
      db := new AssistantDb(20 * 60, clock);
      statusCache := new Cache(2 * 60 * 60, clock);
      inviteCache := new Cache(2 * 60 * 60, clock);
      telegram := new Telegram();
    }

    /** len(c.uBContext) */
    method Len() returns (n: nat)
      requires Contiguous()
      ensures n == Count
    {
      n := |uBContext|;
      RangeCard(uBContext.Keys, Count);
      assert n == |uBContext.Keys|;
    }

    /** Only a client that gets all the way takes an index, and it takes the next one. */
    method StartClient(outcome: StartOutcome) returns (started: bool)
      requires Valid()
      modifies this
      ensures Valid() && started == outcome.Started?
      ensures Count == if started then old(Count) + 1 else old(Count)
      ensures uBContext == if started then old(uBContext)[old(Count) := Client(outcome.me)] else old(uBContext)
    {
      var clientIndex := Len();
      match outcome
      case Started(me) =>
        uBContext, Count := uBContext[clientIndex := Client(me)], Count + 1;
        started := true;
      case _ =>
        started := false;
    }

    /** rand.Int(rand.Reader, n): `draw` gives any number below n, or an error. */
    method Draw(n: nat, draw: Option<nat>) returns (r: Result<nat>)
      requires n > 0
      ensures r == if draw.None? then Err else Ok(draw.value % n)
      ensures r.Ok? ==> r.value < n
    {
      r := if draw.None? then Err else Ok(draw.value % n);
    }

    /**
      With at least one client the index always resolves. An assignment that can be read and is in range is
      returned, and nothing is written; otherwise an index is drawn and written to a vacant assignment only,
      which then is the index returned.
    */
    method GetClientIndex(chatID: int, dbf: DbFaults) returns (r: Result<int>)
      requires Valid()
      modifies db, db.assistantCache, db.assistantCache.clock
      ensures Valid()
      ensures r.Ok? <==> Count > 0
      ensures r.Ok? ==> r.value in uBContext
      ensures dbf.find && old(db.Assigned(chatID)) in uBContext ==>
                r == Ok(old(db.Assigned(chatID))) && db.assistantDB == old(db.assistantDB)
      ensures old(db.assistantCache.clock.now) <= db.assistantCache.clock.now
      ensures Count > 0 && old(db.Assigned(chatID)) !in uBContext ==> r == Ok(DrawnOf(dbf.draw, Count))
      ensures r.Ok? ==> r.value == old(db.Assigned(chatID)) || r.value == DrawnOf(dbf.draw, Count)
      ensures r.Ok? && chatID != 0 && old(db.Vacant(chatID)) && dbf.find && dbf.update ==> db.Assigned(chatID) == r.value
      ensures db.assistantDB == old(db.assistantDB)
              || (r.Ok? && chatID != 0 && old(db.Vacant(chatID))
                  && db.assistantDB == old(db.assistantDB)[chatID := AssistantDoc(Some(r.value))])
    {
      var totalClients := Len();
      if totalClients == 0 {
        return Err;
      }
      var found := db.GetAssistant(chatID, dbf.find);
      var assignedIndex := if found.Ok? then found.value else -1;
      if 0 <= assignedIndex < totalClients {
        return Ok(assignedIndex);
      }
      var n := Draw(totalClients, dbf.draw);
      if n.Err? {
        if assignedIndex == -1 && chatID != 0 {
          var _ := db.AssignAssistant(chatID, 0, dbf.update, dbf.findAgain);
        }
        return Ok(0);
      }
      if chatID != 0 {
        var _ := db.AssignAssistant(chatID, n.value, dbf.update, dbf.findAgain);
      }
      r := Ok(n.value);
    }

    /** GetGroupAssistant: the client behind the index, which the pool invariant makes exist. */
    method GetGroupAssistant(chatID: int, dbf: DbFaults) returns (r: Result<int>)
      requires Valid()
      modifies db, db.assistantCache, db.assistantCache.clock
      ensures Valid()
      ensures r.Ok? <==> Count > 0
      ensures r.Ok? ==> r.value in uBContext
      ensures dbf.find && old(db.Assigned(chatID)) in uBContext ==>
                r == Ok(old(db.Assigned(chatID))) && db.assistantDB == old(db.assistantDB)
      ensures old(db.assistantCache.clock.now) <= db.assistantCache.clock.now
      ensures Count > 0 && old(db.Assigned(chatID)) !in uBContext ==> r == Ok(DrawnOf(dbf.draw, Count))
      ensures r.Ok? ==> r.value == old(db.Assigned(chatID)) || r.value == DrawnOf(dbf.draw, Count)
      ensures db.Others(chatID) == old(db.Others(chatID))
    {
      r := GetClientIndex(chatID, dbf);
      if r.Ok? && r.value !in uBContext {
        return Err;
      }
    }

    method UpdateMembership(chatID: int, userID: int, status: Status)
      requires Valid()
      modifies statusCache, statusCache.clock
      ensures Valid()
      ensures old(statusCache.clock.now) <= statusCache.clock.now
      ensures statusCache.written.Keys == old(statusCache.written.Keys) + {StatusKey(chatID, userID)}
      ensures statusCache.written[StatusKey(chatID, userID)].Value == status
      ensures OtherStatuses(chatID, userID) == old(OtherStatuses(chatID, userID))
    {
      statusCache.Set(StatusKey(chatID, userID), status);
    }

    method UpdateInviteLink(chatID: int, link: string)
      requires Valid()
      modifies inviteCache, inviteCache.clock
      ensures Valid()
      ensures OtherLinks(chatID) == old(OtherLinks(chatID))
      ensures old(inviteCache.clock.now) <= inviteCache.clock.now
      ensures link == "" ==> ToKey(chatID) !in inviteCache.written
      ensures link != "" ==> ToKey(chatID) in inviteCache.written && inviteCache.written[ToKey(chatID)].Value == link
    {
      if link == "" {
        inviteCache.Delete(ToKey(chatID));
        return;
      }
      inviteCache.Set(ToKey(chatID), link);
    }

    method CheckUserStats(chatID: int, userID: int, ans: Answers) returns (r: Reply<Status>)
      requires Valid()
      modifies statusCache, statusCache.clock
      ensures Valid()
      ensures OtherStatuses(chatID, userID) == old(OtherStatuses(chatID, userID))
      ensures old(statusCache.clock.now) <= statusCache.clock.now
      ensures Seen(old(statusCache.written), StatusKey(chatID, userID), old(statusCache.clock.now), statusCache.clock.now, ans, r)
      ensures r.Got? ==> var key := StatusKey(chatID, userID);
                key in statusCache.written && statusCache.written[key].Value == r.value
    {
      var key := StatusKey(chatID, userID);
      var cached := statusCache.Get(key);
      if cached.Hit? {
        return Got(cached.value);
      }
      match ans.member
      case Failed(msg) =>
        if msg.USER_NOT_PARTICIPANT {
          UpdateMembership(chatID, userID, Status(Left, true));
          return Got(Status(Left, true));
        }
        return Failed(msg);
      case Got(status) =>
        UpdateMembership(chatID, userID, status);
        return Got(status);
    }

    method ResolveInviteLink(chatID: int, ans: Answers) returns (r: Reply<string>)
      requires Valid()
      modifies inviteCache, inviteCache.clock
      ensures Valid()
      ensures OtherLinks(chatID) == old(OtherLinks(chatID))
      ensures old(statusCache.clock.now) <= statusCache.clock.now
      ensures Linked(old(inviteCache.written), ToKey(chatID), old(statusCache.clock.now), statusCache.clock.now, ans, if r.Got? then Some(r.value) else None)
      ensures r.Got? ==> ToKey(chatID) in inviteCache.written && inviteCache.written[ToKey(chatID)].Value == r.value
    {
      var cached := inviteCache.Get(ToKey(chatID));
      if cached.Hit? && cached.value != "" {
        return Got(cached.value);
      }
      if ans.inviteLink.Failed? {
        return Failed(ans.inviteLink.msg);
      }
      var link := ans.inviteLink.value;
      if link == "" {
        return Failed(NO_MARKER);
      }
      UpdateInviteLink(chatID, link);
      r := Got(link);
    }

    /** The link is forgotten and the status recorded. */
    method Refuse(chatID: int, userID: int, status: Status)
      requires Valid()
      modifies statusCache, statusCache.clock, inviteCache
      ensures Valid()
      ensures OtherStatuses(chatID, userID) == old(OtherStatuses(chatID, userID))
      ensures OtherLinks(chatID) == old(OtherLinks(chatID))
      ensures old(statusCache.clock.now) <= statusCache.clock.now
      ensures ToKey(chatID) !in inviteCache.written
      ensures var key := StatusKey(chatID, userID);
              key in statusCache.written && statusCache.written[key].Value == status
    {
      inviteCache.Delete(ToKey(chatID));
      UpdateMembership(chatID, userID, status);
    }

    /** A refused invite link is forgotten; only an approved request or an existing membership is no error. */
    method HandleJoinError(chatID: int, userID: int, msg: Message, ans: Answers) returns (r: Reply<()>)
      requires Valid()
      modifies telegram, statusCache, statusCache.clock, inviteCache
      ensures Valid()
      ensures OtherStatuses(chatID, userID) == old(OtherStatuses(chatID, userID))
      ensures OtherLinks(chatID) == old(OtherLinks(chatID))
      ensures old(statusCache.clock.now) <= statusCache.clock.now
      ensures telegram.acts ==
                if msg.INVITE_REQUEST_SENT then old(telegram.acts) + [Approve(chatID, userID)] else old(telegram.acts)
      ensures r.Got? <==> Excused(msg, ans)
      ensures r.Failed? && !msg.INVITE_REQUEST_SENT && (msg.INVITE_HASH_EXPIRED || msg.CHANNEL_PRIVATE) ==>
                ToKey(chatID) !in inviteCache.written
      ensures var key, written := StatusKey(chatID, userID), statusCache.written;
              if msg.INVITE_REQUEST_SENT then written == old(statusCache.written)
              else if msg.USER_ALREADY_PARTICIPANT then key in written && written[key].Value == MEMBER
              else if msg.INVITE_HASH_EXPIRED then key in written && written[key].Value == Status(Banned, true)
              else if msg.CHANNEL_PRIVATE then key in written && written[key].Value == Status(Left, true)
              else written == old(statusCache.written)
    {
      if msg.INVITE_REQUEST_SENT {
        telegram.Act(Approve(chatID, userID));
        return ans.approve;
      } else if msg.USER_ALREADY_PARTICIPANT {
        UpdateMembership(chatID, userID, MEMBER);
        return Got(());
      } else if msg.INVITE_HASH_EXPIRED {
        Refuse(chatID, userID, Status(Banned, true));
        return Failed(NO_MARKER);
      } else if msg.CHANNEL_PRIVATE {
        Refuse(chatID, userID, Status(Left, true));
        return Failed(NO_MARKER);
      }
      r := Failed(msg);
    }

    /** Given a link, the outcome is that of JoinChannel; the membership is then on record. */
    method JoinUb(chatID: int, userID: int, ans: Answers) returns (r: Reply<()>, ghost link: Option<string>)
      requires Valid()
      modifies telegram, statusCache, statusCache.clock, inviteCache
      ensures Valid()
      ensures OtherStatuses(chatID, userID) == old(OtherStatuses(chatID, userID))
      ensures OtherLinks(chatID) == old(OtherLinks(chatID))
      ensures old(statusCache.clock.now) <= statusCache.clock.now
      ensures Linked(old(inviteCache.written), ToKey(chatID), old(statusCache.clock.now), statusCache.clock.now, ans, link)
      ensures telegram.acts == old(telegram.acts) + JoinActs(chatID, userID, ans, link)
      ensures r.Got? <==> link.Some? && Joined(ans)
      ensures r.Got? ==> OnRecord(chatID, userID, ans)
    {
      var resolved := ResolveInviteLink(chatID, ans);
      if resolved.Failed? {
        return Failed(resolved.msg), None;
      }
      link := Some(resolved.value);
      telegram.Act(JoinChannel(chatID, userID, resolved.value));
      if ans.join.Failed? {
        r := HandleJoinError(chatID, userID, ans.join.msg, ans);
        return;
      }
      UpdateMembership(chatID, userID, MEMBER);
      r := Got(());
    }

    /** A join, unless it was a request to be approved, is recorded as membership. */
    ghost predicate OnRecord(chatID: int, userID: int, ans: Answers)
      reads statusCache
    {
      var key := StatusKey(chatID, userID);
      ans.join.Got? || !ans.join.msg.INVITE_REQUEST_SENT ==>
        key in statusCache.written && statusCache.written[key].Value == MEMBER
    }

    method RecoverBanned(chatID: int, userID: int, isBanned: bool, ans: Answers)
      returns (r: Reply<()>, ghost link: Option<string>)
      requires Valid()
      modifies telegram, statusCache, statusCache.clock, inviteCache
      ensures Valid()
      ensures OtherStatuses(chatID, userID) == old(OtherStatuses(chatID, userID))
      ensures OtherLinks(chatID) == old(OtherLinks(chatID))
      ensures old(statusCache.clock.now) <= statusCache.clock.now
      ensures telegram.acts == old(telegram.acts)
                + if isBanned && ans.botCanRestrict == Got(true) then [Unban(chatID, userID)] + JoinActs(chatID, userID, ans, link) else []
      ensures isBanned && ans.botCanRestrict == Got(true) ==>
                Linked(old(inviteCache.written), ToKey(chatID), old(statusCache.clock.now), statusCache.clock.now, ans, link)
      ensures r.Got? <==> ans.botCanRestrict == Got(true) && (isBanned ==> link.Some? && Joined(ans))
      ensures r.Got? && isBanned ==> OnRecord(chatID, userID, ans)
    {
      link := None;
      if ans.botCanRestrict.Failed? {
        return Failed(ans.botCanRestrict.msg), None;
      }
      if !ans.botCanRestrict.value {
        return Failed(NO_MARKER), None;
      }
      if isBanned {
        telegram.Act(Unban(chatID, userID));
        r, link := JoinUb(chatID, userID, ans);
        return;
      }
      r := Got(());
    }

    /** The switch on the membership seen. It succeeds iff that admits the assistant. */
    method Admit(chatID: int, userID: int, status: Status, ans: Answers) returns (r: Reply<()>, ghost link: Option<string>)
      requires Valid()
      modifies telegram, statusCache, statusCache.clock, inviteCache
      ensures Valid()
      ensures OtherStatuses(chatID, userID) == old(OtherStatuses(chatID, userID))
      ensures OtherLinks(chatID) == old(OtherLinks(chatID))
      ensures old(statusCache.clock.now) <= statusCache.clock.now
      ensures var how := Joining(Got(status), link);
              && telegram.acts == old(telegram.acts) + how.Acts(chatID, userID, ans)
              && (r.Got? <==> how.Admits(ans))
              && (how.MayJoin(ans) ==> Linked(old(inviteCache.written), ToKey(chatID), old(statusCache.clock.now), statusCache.clock.now, ans, link))
              && (how.MayJoin(ans) && r.Got? ==> OnRecord(chatID, userID, ans))
    {
      match status.kind
      case Member => return Got(()), None;
      case Banned => r, link := RecoverBanned(chatID, userID, true, ans);
      case Restricted => r, link := RecoverBanned(chatID, userID, false, ans);
      case Left => r, link := JoinUb(chatID, userID, ans);
      case _ =>
        // creators and administrators; a pointer to one is not named by the switch, and takes its default
        if !status.pointer {
          return Got(()), None;
        }
        r, link := JoinUb(chatID, userID, ans);
    }

    /** joinAssistant: find out the membership, and act on it. */
    method EnsureMember(chatID: int, userID: int, ans: Answers) returns (r: Reply<()>, ghost how: Joining)
      requires Valid()
      modifies telegram, statusCache, statusCache.clock, inviteCache
      ensures Valid()
      ensures OtherStatuses(chatID, userID) == old(OtherStatuses(chatID, userID))
      ensures OtherLinks(chatID) == old(OtherLinks(chatID))
      ensures old(statusCache.clock.now) <= statusCache.clock.now
      ensures Seen(old(statusCache.written), StatusKey(chatID, userID), old(statusCache.clock.now), statusCache.clock.now, ans, how.seen)
      ensures how.MayJoin(ans) ==>
                Linked(old(inviteCache.written), ToKey(chatID), old(statusCache.clock.now), statusCache.clock.now, ans, how.link)
      ensures telegram.acts == old(telegram.acts) + how.Acts(chatID, userID, ans)
      ensures r.Got? <==> how.Admits(ans)
      ensures r.Got? && how.MayJoin(ans) ==> OnRecord(chatID, userID, ans)
    {
      var checked := CheckUserStats(chatID, userID, ans);
      if checked.Failed? {
        return Failed(checked.msg), Joining(checked, None);
      }
      ghost var link;
      r, link := Admit(chatID, userID, checked.value, ans);
      how := Joining(checked, link);
    }

    /** The end of JoinAssistant: forget a failed join, store a successful one. */
    method Settle(chatID: int, index: int, joined: Reply<()>, dbf: DbFaults) returns (r: Reply<int>)
      requires Valid() && index in uBContext
      modifies db, db.assistantCache, db.assistantCache.clock, statusCache, inviteCache
      ensures Valid()
      ensures r == if joined.Failed? then Failed(joined.msg) else Got(index)
      ensures joined.Got? ==> db.Assigned(chatID) == if dbf.set_ then index else old(db.Assigned(chatID))
      ensures joined.Failed? ==> db.Assigned(chatID) == if dbf.remove then -1 else old(db.Assigned(chatID))
      ensures joined.Failed? ==> Forgotten(chatID, index, dbf)
      ensures db.Others(chatID) == old(db.Others(chatID))
      ensures inviteCache.written == old(inviteCache.written)
      ensures joined.Got? ==> statusCache.written == old(statusCache.written)
      ensures OtherStatuses(chatID, uBContext[index].id) == old(OtherStatuses(chatID, uBContext[index].id))
      ensures old(statusCache.clock.now) <= statusCache.clock.now
    {
      if joined.Failed? {
        statusCache.Delete(StatusKey(chatID, uBContext[index].id));
        var _ := db.RemoveAssistant(chatID, dbf.remove);
        return Failed(joined.msg);
      }
      var _ := db.SetAssistant(chatID, index, dbf.set_);
      r := Got(index);
    }

    /** What a join of `index`'s assistant, between the clock readings `from` and `to`, saw and did. */
    ghost predicate WentSo(chatID: int, index: int, statuses: map<string, Item<Status>>, links: map<string, Item<string>>,
                           from: int, to: int, ans: Answers, how: Joining)
      requires index in uBContext
      reads this
    {
      && Seen(statuses, StatusKey(chatID, uBContext[index].id), from, to, ans, how.seen)
      && (how.MayJoin(ans) ==> Linked(links, ToKey(chatID), from, to, ans, how.link))
    }

    /** JoinAssistant once the index is known. */
    method JoinWith(chatID: int, index: int, ans: Answers, dbf: DbFaults) returns (r: Reply<int>, ghost how: Joining)
      requires Valid() && index in uBContext
      modifies telegram, db, db.assistantCache, db.assistantCache.clock, statusCache, inviteCache
      ensures Valid()
      ensures WentSo(chatID, index, old(statusCache.written), old(inviteCache.written),
                     old(statusCache.clock.now), statusCache.clock.now, ans, how)
      ensures telegram.acts == old(telegram.acts) + how.Acts(chatID, uBContext[index].id, ans)
      ensures r.Got? <==> how.Admits(ans)
      ensures r.Got? ==> r.value == index
      ensures r.Got? && how.MayJoin(ans) ==> OnRecord(chatID, uBContext[index].id, ans)
      ensures r.Got? ==> db.Assigned(chatID) == if dbf.set_ then index else old(db.Assigned(chatID))
      ensures r.Failed? ==> db.Assigned(chatID) == if dbf.remove then -1 else old(db.Assigned(chatID))
      ensures r.Failed? ==> Forgotten(chatID, index, dbf)
      ensures Rest(chatID) == old(Rest(chatID))
      ensures old(statusCache.clock.now) <= statusCache.clock.now
    {
      var joined;
      joined, how := EnsureMember(chatID, uBContext[index].id, ans);
      label Joined:
      r := Settle(chatID, index, joined, dbf);
      assert db.Others(chatID) == old@Joined(db.Others(chatID));
      ElsewhereKept(old(statusCache.written), statusCache.written, chatID, uBContext[index].id);
    }

    /** Nothing is on record of the assistant in this chat, and (when the deletion works) no assignment. */
    ghost predicate Forgotten(chatID: int, index: int, dbf: DbFaults)
      requires index in uBContext
      reads this, db, statusCache
    {
      var key := StatusKey(chatID, uBContext[index].id);
      && key !in statusCache.written && key !in statusCache.data
      && (dbf.remove ==> db.Assigned(chatID) == -1)
    }

    /**
      It succeeds iff the membership seen and the answers admit the assistant, and does exactly what that takes.
      After a success that could be stored, the assignment is the index used, in range, and so every later
      lookup returns it. After a failure to join, neither a cached membership nor (when the deletion works) an
      assignment is left.
    */
    method JoinAssistant(chatID: int, ans: Answers, dbf: DbFaults) returns (r: Reply<int>, index: int, ghost how: Joining)
      requires Valid()
      modifies telegram, db, db.assistantCache, db.assistantCache.clock, statusCache, inviteCache
      ensures Valid()
      ensures Count > 0 <==> index in uBContext
      ensures index in uBContext ==> WentSo(chatID, index, old(statusCache.written), old(inviteCache.written),
                                            old(statusCache.clock.now), statusCache.clock.now, ans, how)
      ensures telegram.acts == old(telegram.acts)
                               + if index in uBContext then how.Acts(chatID, uBContext[index].id, ans) else []
      ensures r.Got? <==> index in uBContext && how.Admits(ans)
      ensures r.Got? ==> r.value == index
      ensures r.Got? && how.MayJoin(ans) ==> OnRecord(chatID, uBContext[index].id, ans)
      ensures r.Got? && dbf.set_ ==> db.Assigned(chatID) == index
      ensures r.Failed? && index in uBContext ==> Forgotten(chatID, index, dbf)
      ensures index in uBContext ==> index == old(db.Assigned(chatID)) || index == DrawnOf(dbf.draw, Count)
      ensures dbf.find && old(db.Assigned(chatID)) in uBContext ==>
                && index == old(db.Assigned(chatID))
                && db.Assigned(chatID) == if r.Failed? && dbf.remove then -1 else index
      ensures Rest(chatID) == old(Rest(chatID))
      ensures old(statusCache.clock.now) <= statusCache.clock.now
    {
      var found := GetGroupAssistant(chatID, dbf);
      if found.Err? {
        return Failed(NO_MARKER), -1, Joining(Failed(NO_MARKER), None);
      }
      index := found.value;
      label Found:
      r, how := JoinWith(chatID, index, ans, dbf);
      assert db.Others(chatID) == old@Found(db.Others(chatID));
    }

    /**
      What `play` does before streaming: find the chat's assistant and, in a group, make it a member, which is
      JoinAssistant. Without clients there is none to find; otherwise only joining can fail.
    */
    method Acquire(chatID: int, at: Attempt) returns (r: Option<Reply<int>>, index: int, ghost how: Joining)
      requires Valid()
      modifies telegram, db, db.assistantCache, db.assistantCache.clock, statusCache, inviteCache
      ensures Valid()
      ensures r.None? <==> Count == 0
      ensures r.Some? ==> index in uBContext && (r.value.Got? ==> r.value.value == index)
      ensures r.Some? && chatID >= 0 ==> r.value.Got? && telegram.acts == old(telegram.acts)
      ensures r.Some? && chatID >= 0 && at.dbf.find && old(db.Assigned(chatID)) in uBContext ==> index == old(db.Assigned(chatID))
      ensures r.Some? && chatID >= 0 && old(db.Assigned(chatID)) !in uBContext ==> index == DrawnOf(at.dbf.draw, Count)
      ensures r.Some? && chatID < 0 ==>
                && (r.value.Got? <==> how.Admits(at.ans))
                && telegram.acts == old(telegram.acts) + how.Acts(chatID, uBContext[index].id, at.ans)
                && WentSo(chatID, index, old(statusCache.written), old(inviteCache.written),
                          old(statusCache.clock.now), statusCache.clock.now, at.ans, how)
                && (r.value.Got? && at.joinDbf.set_ ==> db.Assigned(chatID) == index)
                && (r.value.Failed? ==> Forgotten(chatID, index, at.joinDbf))
      ensures r.None? ==> telegram.acts == old(telegram.acts)
      ensures r.Some? && LetsIn(at.ans) ==> r.value.Got?
      ensures Rest(chatID) == old(Rest(chatID))
      ensures old(statusCache.clock.now) <= statusCache.clock.now
    {
      index, how := -1, Joining(Failed(NO_MARKER), None);
      var call := GetGroupAssistant(chatID, at.dbf);
      if call.Err? {
        return None, index, how;
      }
      index := call.value;
      if chatID < 0 {
        label Found:
        var joined, i;
        joined, i, how := JoinAssistant(chatID, at.ans, at.joinDbf);
        index := i;
        assert db.Others(chatID) == old@Found(db.Others(chatID));
        return Some(joined), index, how;
      }
      r := Some(Got(call.value));
    }

    // ----- stickiness over runs -----

    /**
      One call of a run, for a chat with an assignment in range: a lookup or a join of this chat uses the
      assigned index, and nothing but a failed join of it, with its deletion, takes the assignment away.
    */
    method Perform(chatID: int, call: PoolCall) returns (index: Option<int>, removed: bool)
      requires Valid() && db.Assigned(chatID) in uBContext && call.Readable()
      modifies this, telegram, db, db.assistantCache, db.assistantCache.clock, statusCache, inviteCache
      ensures Valid()
      ensures index == if call.Concerns(chatID) then Some(old(db.Assigned(chatID))) else None
      ensures removed ==> call.Join? && call.Concerns(chatID) && call.dbf.remove && db.Assigned(chatID) == -1
      ensures !removed ==> db.Assigned(chatID) == old(db.Assigned(chatID)) && db.Assigned(chatID) in uBContext
      ensures Count == old(Count) + if call.Start? && call.outcome.Started? then 1 else 0
    {
      match call
      case Start(outcome) =>
        var _ := StartClient(outcome);
        return None, false;
      case LookUp(chat, dbf) =>
        var r := GetGroupAssistant(chat, dbf);
        assert chat != chatID ==> KeptAt(db.Others(chat), chatID, old(db.Others(chat)));
        index := if chat == chatID then Some(r.value) else None;
        removed := false;
      case Join(chat, ans, dbf) =>
        var r, i, _ := JoinAssistant(chat, ans, dbf);
        assert chat != chatID ==> KeptAt(Rest(chat).assignments, chatID, old(Rest(chat)).assignments);
        index := if chat == chatID then Some(i) else None;
        removed := chat == chatID && r.Failed? && dbf.remove;
    }

    /**
      Any sequence of starts, lookups and joins with a readable store: until a failed join removes the
      assignment of this chat, every lookup and join of it uses the index assigned at the start.
    */
    method PerformAll(chatID: int, calls: seq<PoolCall>) returns (indices: seq<int>, removed: bool)
      requires Valid() && db.Assigned(chatID) in uBContext && forall call | call in calls :: call.Readable()
      modifies this, telegram, db, db.assistantCache, db.assistantCache.clock, statusCache, inviteCache
      ensures Valid()
      ensures forall index | index in indices :: index == old(db.Assigned(chatID))
      ensures if removed then db.Assigned(chatID) == -1 && |indices| > 0
              else db.Assigned(chatID) == old(db.Assigned(chatID)) && |indices| == CallsOf(calls, chatID)
      decreases |calls|
    {
      if calls == [] {
        return [], false;
      }
      var index;
      index, removed := Perform(chatID, calls[0]);
      indices := if index.Some? then [index.value] else [];
      if !removed {
        var more;
        more, removed := PerformAll(chatID, calls[1..]);
        indices := indices + more;
      }
    }

    /** A stored success fixes the index that all of that returns. */
    method JoinThenPerform(chatID: int, ans: Answers, dbf: DbFaults, calls: seq<PoolCall>)
      returns (r: Reply<int>, indices: seq<int>, removed: bool)
      requires Valid() && dbf.set_ && forall call | call in calls :: call.Readable()
      modifies this, telegram, db, db.assistantCache, db.assistantCache.clock, statusCache, inviteCache
      ensures Valid()
      ensures r.Got? ==> forall index | index in indices :: index == r.value
      ensures r.Got? && !removed ==> db.Assigned(chatID) == r.value && |indices| == CallsOf(calls, chatID)
    {
      var joined, _, _ := JoinAssistant(chatID, ans, dbf);
      r := joined;
      indices, removed := [], false;
      if r.Got? {
        indices, removed := PerformAll(chatID, calls);
      }
    }

    /** Drops the chat's assignment, if the database lets us. */
    method Forget(chatID: int, deleteOk: bool)
      requires Valid()
      modifies db, db.assistantCache, db.assistantCache.clock
      ensures Valid()
      ensures deleteOk ==> db.Assigned(chatID) == -1
      ensures !deleteOk ==> db.assistantDB == old(db.assistantDB)
      ensures db.Others(chatID) == old(db.Others(chatID))
    {
      var _ := db.RemoveAssistant(chatID, deleteOk);
    }
  }
}

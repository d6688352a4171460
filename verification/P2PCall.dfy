/**
  A private (P2P) call: connectCall of src/vc/ubot/connect_call.go against the phone-call update handler of
  src/vc/ubot/handle_updates.go. The call with the peer is one goroutine; updates arrive in any order the
  server allows. WaitData is an unbuffered channel: a handler that sends on it stays blocked until connectCall
  receives, and nothing after the send has happened until then.
*/
module P2PCall {
  import opened Common

  /** Where the bytes in GAorB came from. */
  datatype Key = NoKey | Own | PeerHash | PeerKey

  /** types.P2PConfig; `chan` identifies its WaitData channel. */
  datatype Config = Config(outgoing: bool, gaOrB: Key, phoneCall: bool, chan: nat)

  /**
    The `id`-th handler to send, blocked in `WaitData <- msg`; a discard handler has still to forget `user`'s
    input call.
  */
  datatype Sender = Sender(chan: nat, ok: bool, user: int, id: nat)

  /** How far connectCall has got; each value names what has just succeeded. */
  datatype Pc =
    | Before | Entered | HasConfig | CallCreated | SourcesSet | ExchangeInited | UserFound
    | Signalled | Answered | KeysExchanged | Confirmed | Connected | Done(ok: bool)

  datatype State = State(
    pc: Pc,
    waitConnect: set<int>,
    p2pConfigs: map<int, Config>,
    inputCalls: map<int, nat>,     // chat |-> call ID
    senders: seq<Sender>,          // blocked handlers
    sent: nat,                     // handlers that have come to a send
    forgetting: set<int>,          // discard handlers past their send, about to delete this input call
    chans: nat,                    // WaitData channels made so far
    requested: bool,               // PhoneRequestCall has been sent
    accepted: bool,                // PhoneAcceptCall has been sent
    exchangedWith: Key             // GAorB as ExchangeKeys got it
  )

  /** The one current call between us and the peer; in a private chat the chat ID is the peer's user ID. */
  datatype Call = Call(self: int, peer: int, id: nat, outgoing: bool)
  {
    function Admin(): int { if outgoing then self else peer }
    function Participant(): int { if outgoing then peer else self }
    predicate Valid() { self != peer && peer > 0 && self > 0 }
  }

  datatype Action =
    // connectCall's steps, with how they turn out
    | Enter | GetConfig(ok: bool) | CreateCall(ok: bool) | SetSources(ok: bool) | InitExchange(ok: bool)
    | FindUser(ok: bool) | Signal(ok: bool) | Receive(i: nat) | TimeOut | ExchangeKeys(ok: bool)
    | Confirm(ok: bool) | ConnectP2P(ok: bool) | Await(ok: bool)
    // the handler, one update of the current call each
    | OnWaiting | OnAccepted | OnRequested(ok: bool) | OnPhoneCall | OnDiscarded(user: int)
    | Forget(user: int)
    // an update of somebody else's call
    | OnOther(user: int, config: Option<Config>, input: Option<nat>)

  /** The deferred deletions, on every way out. */
  function Exit(s: State, c: Call, ok: bool): State {
    s.(pc := Done(ok), p2pConfigs := s.p2pConfigs - {c.peer}, waitConnect := s.waitConnect - {c.peer})
  }

  /** A step that fails leaves connectCall. */
  function Advance(s: State, c: Call, ok: bool, next: Pc): State {
    if ok then s.(pc := next) else Exit(s, c, false)
  }

  /** connectCall is in its select and handler `i` of those blocked sends on its channel. */
  predicate CanReceive(s: State, c: Call, i: nat) {
    && s.pc.Signalled? && c.peer in s.p2pConfigs
    && i < |s.senders| && s.senders[i].chan == s.p2pConfigs[c.peer].chan
  }

  function ConnectStep(s: State, c: Call, a: Action): State {
    var chat := c.peer;
    match a
    case Enter => if s.pc.Before? then s.(pc := Entered, waitConnect := s.waitConnect + {chat}) else s
    case GetConfig(ok) =>
      if !s.pc.Entered? then s
      else if chat in s.p2pConfigs then s.(pc := HasConfig)
      else if !ok then Exit(s, c, false)
      else s.(pc := HasConfig, chans := s.chans + 1,
              p2pConfigs := s.p2pConfigs[chat := Config(true, NoKey, false, s.chans)])
    case CreateCall(ok) => if s.pc.HasConfig? then Advance(s, c, ok, CallCreated) else s
    case SetSources(ok) => if s.pc.CallCreated? then Advance(s, c, ok, SourcesSet) else s
    case InitExchange(ok) =>
      if s.pc.SourcesSet? && chat in s.p2pConfigs then
        Advance(s.(p2pConfigs := s.p2pConfigs[chat := s.p2pConfigs[chat].(gaOrB := Own)]), c, ok, ExchangeInited)
      else s
    case FindUser(ok) => if s.pc.ExchangeInited? then Advance(s, c, ok, UserFound) else s
    case Signal(ok) =>
      if s.pc.UserFound? && chat in s.p2pConfigs then
        Advance(if s.p2pConfigs[chat].outgoing then s.(requested := true) else s.(accepted := true), c, ok, Signalled)
      else s
    case Receive(i) =>
      if CanReceive(s, c, i) then
        var m := s.senders[i];
        var s1 := s.(senders := s.senders[..i] + s.senders[i + 1..]);
        if m.ok then s1.(pc := Answered) else Exit(s1.(forgetting := s1.forgetting + {m.user}), c, false)
      else s
    case TimeOut => if s.pc.Signalled? then Exit(s, c, false) else s
    case ExchangeKeys(ok) =>
      if s.pc.Answered? && chat in s.p2pConfigs then
        Advance(s.(exchangedWith := s.p2pConfigs[chat].gaOrB), c, ok, KeysExchanged)
      else s
    case Confirm(ok) =>
      if s.pc.KeysExchanged? && chat in s.p2pConfigs then
        if s.p2pConfigs[chat].outgoing then
          Advance(s.(p2pConfigs := s.p2pConfigs[chat := s.p2pConfigs[chat].(phoneCall := ok)]), c, ok, Confirmed)
        else s.(pc := Confirmed)
      else s
    case ConnectP2P(ok) => if s.pc.Confirmed? then Advance(s, c, ok, Connected) else s
    case Await(ok) => if s.pc.Connected? then Exit(s, c, ok) else s
    case _ => s
  }

  /** Does the current call exist for the server, and has it got to where this update can be sent? */
  predicate Possible(s: State, c: Call, a: Action) {
    match a
    case OnAccepted => c.outgoing ==> s.requested
    case OnWaiting => c.outgoing ==> s.requested
    case OnPhoneCall => if c.outgoing then s.requested else s.accepted
    case OnDiscarded(user) =>
      && (c.outgoing ==> s.requested)
      // convertCallId: some chat with this call's ID, or 0 when there is none
      && (if user in s.inputCalls then s.inputCalls[user] == c.id
          else user == 0 && forall u | u in s.inputCalls :: s.inputCalls[u] != c.id)
    case OnOther(user, _, input) => user != c.peer && user != c.self && input != Some(c.id)
    case _ => true
  }

  function HandlerStep(s: State, c: Call, a: Action): State {
    match a
    case OnWaiting => s.(inputCalls := s.inputCalls[c.Participant() := c.id])
    case OnAccepted =>
      var u := c.Participant();
      var s1 := s.(inputCalls := s.inputCalls[u := c.id]);
      if u !in s.p2pConfigs then s1
      else s1.(p2pConfigs := s.p2pConfigs[u := s.p2pConfigs[u].(gaOrB := PeerKey)],
               senders := s.senders + [Sender(s.p2pConfigs[u].chan, true, u, s.sent)], sent := s.sent + 1)
    case OnRequested(ok) =>
      var u := c.Admin();
      var s1 := s.(inputCalls := s.inputCalls[u := c.id]);
      if u in s.p2pConfigs || !ok then s1
      else s1.(p2pConfigs := s.p2pConfigs[u := Config(false, PeerHash, false, s.chans)], chans := s.chans + 1)
    case OnPhoneCall =>
      var u := c.Admin();
      if u !in s.p2pConfigs then s
      else s.(p2pConfigs := s.p2pConfigs[u := s.p2pConfigs[u].(gaOrB := PeerKey, phoneCall := true)],
              senders := s.senders + [Sender(s.p2pConfigs[u].chan, true, u, s.sent)], sent := s.sent + 1)
    case OnDiscarded(u) =>
      if u in s.p2pConfigs
      then s.(senders := s.senders + [Sender(s.p2pConfigs[u].chan, false, u, s.sent)], sent := s.sent + 1)
      else s.(inputCalls := s.inputCalls - {u})
    case Forget(u) =>
      if u in s.forgetting then s.(inputCalls := s.inputCalls - {u}, forgetting := s.forgetting - {u}) else s
    case OnOther(u, config, input) =>
      var configs := if config.None? then s.p2pConfigs - {u}
                     else s.p2pConfigs[u := config.value.(chan := s.chans)];
      var inputs := if input.None? then s.inputCalls - {u} else s.inputCalls[u := input.value];
      s.(p2pConfigs := configs, inputCalls := inputs, chans := s.chans + 1)
    case _ => s
  }

  predicate IsUpdate(a: Action) {
    a.OnWaiting? || a.OnAccepted? || a.OnRequested? || a.OnPhoneCall? || a.OnDiscarded? || a.Forget? || a.OnOther?
  }

  function Step(s: State, c: Call, a: Action): State {
    if !Possible(s, c, a) then s else if IsUpdate(a) then HandlerStep(s, c, a) else ConnectStep(s, c, a)
  }

  function Run(s: State, c: Call, acts: seq<Action>): State {
    if acts == [] then s else Step(Run(s, c, acts[..|acts| - 1]), c, acts[|acts| - 1])
  }

  /**
    Before connectCall. Outgoing: nothing is known of the peer. Incoming: the PhoneCallRequested update has
    recorded the call and made the configuration, and nothing has been sent on its channel.
  */
  ghost predicate Init(s: State, c: Call) {
    && c.Valid() && s.pc.Before? && c.peer !in s.waitConnect && s.forgetting == {} && !s.requested && !s.accepted
    && (forall u | u in s.p2pConfigs :: s.p2pConfigs[u].chan < s.chans)
    && (forall u, v | u in s.p2pConfigs && v in s.p2pConfigs && u != v :: s.p2pConfigs[u].chan != s.p2pConfigs[v].chan)
    && s.senders == [] && s.sent == 0
    && if c.outgoing then c.peer !in s.p2pConfigs && forall u | u in s.inputCalls :: s.inputCalls[u] != c.id
       else
         && c.peer in s.p2pConfigs && c.peer in s.inputCalls && s.inputCalls[c.peer] == c.id
         && var cfg := s.p2pConfigs[c.peer]; !cfg.outgoing && cfg.gaOrB == PeerHash && !cfg.phoneCall
  }

  predicate Active(pc: Pc) {
    !pc.Before? && !pc.Entered? && !pc.Done?
  }

  predicate PastAnswer(pc: Pc) {
    pc.Answered? || pc.KeysExchanged? || pc.Confirmed? || pc.Connected?
  }

  /** What an answer on the call's own channel stands for. */
  ghost predicate AnswerMeans(s: State, c: Call) {
    && c.peer in s.p2pConfigs && s.p2pConfigs[c.peer].gaOrB == PeerKey
    && c.peer in s.inputCalls && s.inputCalls[c.peer] == c.id
    && if c.outgoing then s.requested else s.accepted && s.p2pConfigs[c.peer].phoneCall
  }

  /** GAorB is what InitExchange is to be given, the peer's hash or nothing yet, and then our half until it is sent. */
  predicate KeyInTurn(pc: Pc, c: Call, key: Key) {
    && (pc.Before? || pc.Entered? || pc.HasConfig? || pc.CallCreated? || pc.SourcesSet? ==> key == if c.outgoing then NoKey else PeerHash)
    && (pc.ExchangeInited? || pc.UserFound? ==> key == Own)
  }

  ghost predicate Inv(s: State, c: Call) {
    && c.Valid()
    // channels belong to one configuration each
    && (forall u | u in s.p2pConfigs :: s.p2pConfigs[u].chan < s.chans)
    && (forall u, v | u in s.p2pConfigs && v in s.p2pConfigs && u != v :: s.p2pConfigs[u].chan != s.p2pConfigs[v].chan)
    && (forall i | 0 <= i < |s.senders| :: s.senders[i].chan < s.chans)
    && (s.pc.Before? || s.pc.Done? || c.peer in s.waitConnect)
    && (s.pc.Done? ==> c.peer !in s.waitConnect && (c.outgoing ==> c.peer !in s.p2pConfigs))
    && (Active(s.pc) ==> c.peer in s.p2pConfigs)
    && (!s.pc.Done? ==>
          // the configuration has the call's role, and exists from the start when it came with the call
          && (c.peer in s.p2pConfigs ==> s.p2pConfigs[c.peer].outgoing == c.outgoing)
          && (c.outgoing && (s.pc.Before? || s.pc.Entered?) ==> c.peer !in s.p2pConfigs)
          && (!c.outgoing ==> c.peer in s.p2pConfigs && c.peer in s.inputCalls && s.inputCalls[c.peer] == c.id)
          // a discard is still waiting to be heard, so no input call is being forgotten
          && c.peer !in s.forgetting
          // nothing is signalled early
          && (s.requested ==> c.outgoing && (s.pc.Signalled? || PastAnswer(s.pc)))
          && (s.accepted ==> !c.outgoing && (s.pc.Signalled? || PastAnswer(s.pc)))
          // a positive answer waiting on the call's channel means what it should
          && (c.peer in s.p2pConfigs ==>
                forall i | 0 <= i < |s.senders| && s.senders[i].chan == s.p2pConfigs[c.peer].chan && s.senders[i].ok ::
                  AnswerMeans(s, c)))
    && (c.peer in s.p2pConfigs ==> KeyInTurn(s.pc, c, s.p2pConfigs[c.peer].gaOrB))
    && (PastAnswer(s.pc) ==> AnswerMeans(s, c))
    && (s.pc.KeysExchanged? || s.pc.Confirmed? || s.pc.Connected? ==> s.exchangedWith == PeerKey)
    && (s.pc.Confirmed? || s.pc.Connected? ==> s.p2pConfigs[c.peer].phoneCall)
  }

  lemma InitEstablishesInv(s: State, c: Call)
    requires Init(s, c)
    ensures Inv(s, c)
  {
  }

  lemma GetConfigKeepsInv(s: State, c: Call, ok: bool)
    requires Inv(s, c)
    ensures Inv(ConnectStep(s, c, GetConfig(ok)), c)
  {
  }

  lemma InitExchangeKeepsInv(s: State, c: Call, ok: bool)
    requires Inv(s, c)
    ensures Inv(ConnectStep(s, c, InitExchange(ok)), c)
  {
  }

  lemma SignalKeepsInv(s: State, c: Call, ok: bool)
    requires Inv(s, c)
    ensures Inv(ConnectStep(s, c, Signal(ok)), c)
  {
  }

  lemma ReceiveKeepsInv(s: State, c: Call, i: nat)
    requires Inv(s, c)
    ensures Inv(ConnectStep(s, c, Receive(i)), c)
  {
  }

  lemma ConfirmKeepsInv(s: State, c: Call, ok: bool)
    requires Inv(s, c)
    ensures Inv(ConnectStep(s, c, Confirm(ok)), c)
  {
  }

  lemma ExchangeKeysKeepsInv(s: State, c: Call, ok: bool)
    requires Inv(s, c)
    ensures Inv(ConnectStep(s, c, ExchangeKeys(ok)), c)
  {
  }

  lemma ExitKeepsInv(s: State, c: Call, ok: bool)
    requires Inv(s, c)
    ensures Inv(Exit(s, c, ok), c)
  {
  }

  lemma EnterKeepsInv(s: State, c: Call)
    requires Inv(s, c)
    ensures Inv(ConnectStep(s, c, Enter), c)
  {
  }

  /** Steps that only move connectCall along, or out of it. */
  lemma PlainStepKeepsInv(s: State, c: Call, a: Action)
    requires Inv(s, c)
    requires a.CreateCall? || a.SetSources? || a.FindUser? || a.TimeOut? || a.ConnectP2P? || a.Await?
    ensures Inv(ConnectStep(s, c, a), c)
  {
    var r := ConnectStep(s, c, a);
    if r.pc.Done? && r != s {
      ExitKeepsInv(s, c, r.pc.ok);
    }
  }

  lemma ConnectStepKeepsInv(s: State, c: Call, a: Action)
    requires Inv(s, c) && !IsUpdate(a)
    ensures Inv(ConnectStep(s, c, a), c)
  {
    match a
    case Enter => EnterKeepsInv(s, c);
    case GetConfig(ok) => GetConfigKeepsInv(s, c, ok);
    case InitExchange(ok) => InitExchangeKeepsInv(s, c, ok);
    case Signal(ok) => SignalKeepsInv(s, c, ok);
    case Receive(i) => ReceiveKeepsInv(s, c, i);
    case Confirm(ok) => ConfirmKeepsInv(s, c, ok);
    case ExchangeKeys(ok) => ExchangeKeysKeepsInv(s, c, ok);
    case _ => PlainStepKeepsInv(s, c, a);
  }

  lemma OnWaitingKeepsInv(s: State, c: Call)
    requires Inv(s, c) && Possible(s, c, OnWaiting)
    ensures Inv(HandlerStep(s, c, OnWaiting), c)
  {
  }

  lemma OnAcceptedKeepsInv(s: State, c: Call)
    requires Inv(s, c) && Possible(s, c, OnAccepted)
    ensures Inv(HandlerStep(s, c, OnAccepted), c)
  {
  }

  lemma OnRequestedKeepsInv(s: State, c: Call, ok: bool)
    requires Inv(s, c) && Possible(s, c, OnRequested(ok))
    ensures Inv(HandlerStep(s, c, OnRequested(ok)), c)
  {
  }

  lemma OnPhoneCallKeepsInv(s: State, c: Call)
    requires Inv(s, c) && Possible(s, c, OnPhoneCall)
    ensures Inv(HandlerStep(s, c, OnPhoneCall), c)
  {
  }

  lemma OnDiscardedKeepsInv(s: State, c: Call, u: int)
    requires Inv(s, c) && Possible(s, c, OnDiscarded(u))
    ensures Inv(HandlerStep(s, c, OnDiscarded(u)), c)
  {
  }

  lemma ForgetKeepsInv(s: State, c: Call, u: int)
    requires Inv(s, c) && Possible(s, c, Forget(u))
    ensures Inv(HandlerStep(s, c, Forget(u)), c)
  {
  }

  lemma OnOtherKeepsInv(s: State, c: Call, u: int, config: Option<Config>, input: Option<nat>)
    requires Inv(s, c) && Possible(s, c, OnOther(u, config, input))
    ensures Inv(HandlerStep(s, c, OnOther(u, config, input)), c)
  {
  }

  lemma HandlerStepKeepsInv(s: State, c: Call, a: Action)
    requires Inv(s, c) && Possible(s, c, a) && IsUpdate(a)
    ensures Inv(HandlerStep(s, c, a), c)
  {
    match a
    case OnWaiting => OnWaitingKeepsInv(s, c);
    case OnAccepted => OnAcceptedKeepsInv(s, c);
    case OnRequested(ok) => OnRequestedKeepsInv(s, c, ok);
    case OnPhoneCall => OnPhoneCallKeepsInv(s, c);
    case OnDiscarded(u) => OnDiscardedKeepsInv(s, c, u);
    case Forget(u) => ForgetKeepsInv(s, c, u);
    case OnOther(u, config, input) => OnOtherKeepsInv(s, c, u, config, input);
  }

  lemma StepKeepsInv(s: State, c: Call, a: Action)
    requires Inv(s, c)
    ensures Inv(Step(s, c, a), c)
  {
    if Possible(s, c, a) {
      if IsUpdate(a) {
        HandlerStepKeepsInv(s, c, a);
      } else {
        ConnectStepKeepsInv(s, c, a);
      }
    }
  }

  lemma {:induction false} RunKeepsInv(s: State, c: Call, acts: seq<Action>)
    requires Inv(s, c)
    ensures Inv(Run(s, c, acts), c)
  {
    if acts != [] {
      RunKeepsInv(s, c, acts[..|acts| - 1]);
      StepKeepsInv(Run(s, c, acts[..|acts| - 1]), c, acts[|acts| - 1]);
    }
  }

  lemma InvHolds(s: State, c: Call, acts: seq<Action>)
    requires Init(s, c)
    ensures Inv(Run(s, c, acts), c)
  {
    InitEstablishesInv(s, c);
    RunKeepsInv(s, c, acts);
  }

  // ----- what the handshake guarantees, whatever the order of updates -----

  /**
    Handshake safety, in both roles and for every interleaving. The configuration connectCall dereferences is
    there. InitExchange is given the hash the peer sent, or nothing when there is none yet, and our half is what
    is then requested or accepted with. PhoneAcceptCall has the recorded call. PhoneConfirmCall comes after the peer's g_b replaced GAorB
    and went into the key exchange, with the call recorded. ConnectP2P comes after the key exchange with the
    peer's key, with PhoneCall set.
  */
  lemma HandshakeSafety(s: State, c: Call, acts: seq<Action>)
    requires Init(s, c)
    ensures var r := Run(s, c, acts);
            && (Active(r.pc) ==> c.peer in r.p2pConfigs && r.p2pConfigs[c.peer].outgoing == c.outgoing)
            && (r.pc.SourcesSet? ==> r.p2pConfigs[c.peer].gaOrB == if c.outgoing then NoKey else PeerHash)
            && (r.pc.UserFound? ==> r.p2pConfigs[c.peer].gaOrB == Own)
            && (r.pc.UserFound? && !c.outgoing ==> c.peer in r.inputCalls && r.inputCalls[c.peer] == c.id)
            && (r.pc.KeysExchanged? && c.outgoing ==>
                  && r.p2pConfigs[c.peer].gaOrB == PeerKey && r.exchangedWith == PeerKey
                  && c.peer in r.inputCalls && r.inputCalls[c.peer] == c.id)
            && (r.pc.Confirmed? ==> r.p2pConfigs[c.peer].phoneCall && r.exchangedWith == PeerKey)
  {
    InvHolds(s, c, acts);
  }

  // ----- the handshake can be completed -----

  /** connectCall up to the signalling. */
  function Prepare(): seq<Action> {
    [Enter, GetConfig(true), CreateCall(true), SetSources(true)]
  }

  function Announce(): seq<Action> {
    [InitExchange(true), FindUser(true), Signal(true)]
  }

  /** The peer's answer is received. */
  function Answer(c: Call): seq<Action> {
    [if c.outgoing then OnAccepted else OnPhoneCall, Receive(0)]
  }

  function Finish(): seq<Action> {
    [ExchangeKeys(true), Confirm(true), ConnectP2P(true)]
  }

  lemma RunSnoc(s: State, c: Call, acts: seq<Action>, a: Action)
    ensures Run(s, c, acts + [a]) == Step(Run(s, c, acts), c, a)
  {
    assert (acts + [a])[..|acts|] == acts;
  }

  /** Runs compose. */
  lemma {:induction false} RunConcat(s: State, c: Call, first: seq<Action>, second: seq<Action>)
    ensures Run(s, c, first + second) == Run(Run(s, c, first), c, second)
  {
    if second == [] {
      assert first + second == first;
    } else {
      var n := |second| - 1;
      assert first + second == first + second[..n] + [second[n]];
      RunSnoc(s, c, first + second[..n], second[n]);
      RunConcat(s, c, first, second[..n]);
    }
  }

  lemma RunCons(s: State, c: Call, a: Action, rest: seq<Action>)
    ensures Run(s, c, [a] + rest) == Run(Step(s, c, a), c, rest)
  {
    RunConcat(s, c, [a], rest);
    assert Run(s, c, [a]) == Step(s, c, a) by { RunSnoc(s, c, [], a); assert [] + [a] == [a]; }
  }

  /** The configuration is there, and nobody waits to be heard. */
  ghost predicate Quiet(s: State, c: Call, pc: Pc) {
    && s.pc == pc && s.senders == [] && c.Valid()
    && c.peer in s.p2pConfigs && s.p2pConfigs[c.peer].outgoing == c.outgoing
  }

  lemma EnterStaysQuiet(s: State, c: Call)
    requires Init(s, c)
    ensures Quiet(Step(Step(s, c, Enter), c, GetConfig(true)), c, HasConfig)
  {
  }

  lemma CreateStaysQuiet(s: State, c: Call)
    requires Quiet(s, c, HasConfig)
    ensures Quiet(Step(Step(s, c, CreateCall(true)), c, SetSources(true)), c, SourcesSet)
  {
  }

  lemma PrepareRuns(s: State, c: Call)
    requires Init(s, c)
    ensures Quiet(Run(s, c, Prepare()), c, SourcesSet)
  {
    var a := Prepare();
    assert a == [a[0]] + ([a[1]] + ([a[2]] + ([a[3]] + [])));
    RunCons(s, c, a[0], [a[1]] + ([a[2]] + ([a[3]] + [])));
    var s1 := Step(s, c, a[0]);
    RunCons(s1, c, a[1], [a[2]] + ([a[3]] + []));
    var s2 := Step(s1, c, a[1]);
    EnterStaysQuiet(s, c);
    RunCons(s2, c, a[2], [a[3]] + []);
    RunCons(Step(s2, c, a[2]), c, a[3], []);
    CreateStaysQuiet(s2, c);
  }

  lemma ExchangeStaysQuiet(s: State, c: Call)
    requires Quiet(s, c, SourcesSet)
    ensures Quiet(Step(s, c, InitExchange(true)), c, ExchangeInited)
  {
  }

  lemma FindUserStaysQuiet(s: State, c: Call)
    requires Quiet(s, c, ExchangeInited)
    ensures Quiet(Step(s, c, FindUser(true)), c, UserFound)
  {
  }

  lemma SignalStaysQuiet(s: State, c: Call)
    requires Quiet(s, c, UserFound)
    ensures var r := Step(s, c, Signal(true)); Quiet(r, c, Signalled) && if c.outgoing then r.requested else r.accepted
  {
  }

  lemma AnnounceRuns(s: State, c: Call)
    requires Quiet(s, c, SourcesSet)
    ensures var r := Run(s, c, Announce());
            Quiet(r, c, Signalled) && if c.outgoing then r.requested else r.accepted
  {
    var a := Announce();
    assert a == [a[0]] + ([a[1]] + ([a[2]] + []));
    RunCons(s, c, a[0], [a[1]] + ([a[2]] + []));
    ExchangeStaysQuiet(s, c);
    var s1 := Step(s, c, a[0]);
    RunCons(s1, c, a[1], [a[2]] + []);
    FindUserStaysQuiet(s1, c);
    var s2 := Step(s1, c, a[1]);
    RunCons(s2, c, a[2], []);
    SignalStaysQuiet(s2, c);
  }

  lemma AnswerRuns(s: State, c: Call)
    requires Quiet(s, c, Signalled) && if c.outgoing then s.requested else s.accepted
    ensures Quiet(Run(s, c, Answer(c)), c, Answered)
  {
    var a := Answer(c);
    assert a == [a[0]] + ([a[1]] + []);
    RunCons(s, c, a[0], [a[1]] + []);
    var s1 := Step(s, c, a[0]);
    assert s1.senders == [Sender(s.p2pConfigs[c.peer].chan, true, c.peer, s.sent)];
    RunCons(s1, c, a[1], []);
  }

  lemma ExchangeKeysStaysQuiet(s: State, c: Call)
    requires Quiet(s, c, Answered)
    ensures Quiet(Step(s, c, ExchangeKeys(true)), c, KeysExchanged)
  {
  }

  lemma ConfirmStaysQuiet(s: State, c: Call)
    requires Quiet(s, c, KeysExchanged)
    ensures var r := Step(Step(s, c, Confirm(true)), c, ConnectP2P(true)); r.pc.Connected? && r.senders == []
  {
  }

  lemma FinishRuns(s: State, c: Call)
    requires Quiet(s, c, Answered)
    ensures Run(s, c, Finish()).pc.Connected? && Run(s, c, Finish()).senders == []
  {
    var a := Finish();
    assert a == [a[0]] + ([a[1]] + ([a[2]] + []));
    RunCons(s, c, a[0], [a[1]] + ([a[2]] + []));
    ExchangeKeysStaysQuiet(s, c);
    var s1 := Step(s, c, a[0]);
    RunCons(s1, c, a[1], [a[2]] + []);
    RunCons(Step(s1, c, a[1]), c, a[2], []);
    ConfirmStaysQuiet(s1, c);
  }

  /**
    The safety above is not for want of progress: in either role, when every step works and the peer answers,
    the call gets connected.
  */
  lemma HandshakeCompletes(s: State, c: Call)
    requires Init(s, c)
    ensures var r := Run(s, c, Prepare() + Announce() + Answer(c) + Finish()); r.pc.Connected? && r.senders == []
  {
    PrepareRuns(s, c);
    var s1 := Run(s, c, Prepare());
    AnnounceRuns(s1, c);
    var s2 := Run(s1, c, Announce());
    AnswerRuns(s2, c);
    FinishRuns(Run(s2, c, Answer(c)), c);
    RunConcat(s, c, Prepare(), Announce());
    RunConcat(s, c, Prepare() + Announce(), Answer(c));
    RunConcat(s, c, Prepare() + Announce() + Answer(c), Finish());
  }

  /** Once connectCall has returned, an outgoing call has left no trace in waitConnect or p2pConfigs, ever after. */
  lemma OutgoingLeavesNothing(s: State, c: Call, acts: seq<Action>)
    requires Init(s, c) && c.outgoing && Run(s, c, acts).pc.Done?
    ensures var r := Run(s, c, acts); c.peer !in r.waitConnect && c.peer !in r.p2pConfigs
  {
    InvHolds(s, c, acts);
  }

  /**
    Every exit of connectCall, in either role and by whatever step, leaves neither entry; for an incoming call
    only another PhoneCallRequested can make a configuration again.
  */
  lemma {:induction false} EveryExitCleansUp(s: State, c: Call, acts: seq<Action>)
    requires Init(s, c) && Run(s, c, acts).pc.Done?
    ensures var r := Run(s, c, acts);
            && c.peer !in r.waitConnect
            && (c.peer in r.p2pConfigs ==> exists i :: 0 <= i < |acts| && acts[i].OnRequested? && Run(s, c, acts[..i]).pc.Done?)
  {
    InvHolds(s, c, acts);
    var n := |acts| - 1;
    var before, a := Run(s, c, acts[..n]), acts[n];
    if !before.pc.Done? {
      ExitStepCleansUp(before, c, a);
    } else if c.peer in Run(s, c, acts).p2pConfigs {
      InvHolds(s, c, acts[..n]);
      if c.peer in before.p2pConfigs {
        EveryExitCleansUp(s, c, acts[..n]);
        var i :| 0 <= i < n && acts[..n][i].OnRequested? && Run(s, c, acts[..n][..i]).pc.Done?;
        assert acts[..n][..i] == acts[..i];
      } else {
        OnlyRequestsReconfigure(before, c, a);
      }
    }
  }

  lemma OnlyRequestsReconfigure(s: State, c: Call, a: Action)
    requires Inv(s, c) && s.pc.Done? && c.peer !in s.p2pConfigs && c.peer in Step(s, c, a).p2pConfigs
    ensures a.OnRequested?
  {
  }

  lemma UpdatesKeepPc(s: State, c: Call, a: Action)
    ensures HandlerStep(s, c, a).pc == s.pc && s.senders <= HandlerStep(s, c, a).senders
  {
  }

  lemma ExitStepCleansUp(s: State, c: Call, a: Action)
    requires !s.pc.Done? && Step(s, c, a).pc.Done?
    ensures c.peer !in Step(s, c, a).p2pConfigs
  {
    UpdatesKeepPc(s, c, a);
  }

  lemma LateStepKeepsSenders(s: State, c: Call, a: Action)
    requires PastAnswer(s.pc) || s.pc.Done?
    ensures var r := Step(s, c, a); (PastAnswer(r.pc) || r.pc.Done?) && s.senders <= r.senders
  {
    UpdatesKeepPc(s, c, a);
  }

  /**
    What the unbuffered channel costs: once connectCall is past its select, no handler blocked on WaitData is
    ever released, so a discard that comes later neither forgets the call nor stops it.
  */
  lemma {:induction false} LateSendersStayBlocked(s: State, c: Call, acts: seq<Action>)
    requires PastAnswer(s.pc) || s.pc.Done?
    ensures var r := Run(s, c, acts); (PastAnswer(r.pc) || r.pc.Done?) && s.senders <= r.senders
  {
    if acts != [] {
      LateSendersStayBlocked(s, c, acts[..|acts| - 1]);
      LateStepKeepsSenders(Run(s, c, acts[..|acts| - 1]), c, acts[|acts| - 1]);
    }
  }

  // ----- how a call ends, and what updates record -----

  /** The ways in which connectCall can fail where it stands. */
  predicate FailsAt(s: State, c: Call, a: Action) {
    match s.pc
    case Entered => a == GetConfig(false) && c.peer !in s.p2pConfigs
    case HasConfig => a == CreateCall(false)
    case CallCreated => a == SetSources(false)
    case SourcesSet => a == InitExchange(false)
    case ExchangeInited => a == FindUser(false)
    case UserFound => a == Signal(false)
    case Signalled => a == TimeOut || (a.Receive? && CanReceive(s, c, a.i) && !s.senders[a.i].ok)
    case Answered => a == ExchangeKeys(false)
    case KeysExchanged => a == Confirm(false) && c.outgoing
    case Confirmed => a == ConnectP2P(false)
    case Connected => a == Await(false)
    case _ => false
  }

  ghost predicate Ended(r: State, c: Call, ok: bool) {
    r.pc == Done(ok) && c.peer !in r.waitConnect && c.peer !in r.p2pConfigs
  }

  lemma EarlyFailureEnds(s: State, c: Call, a: Action)
    requires Inv(s, c) && FailsAt(s, c, a) && (s.pc.Entered? || s.pc.HasConfig? || s.pc.CallCreated? || s.pc.SourcesSet?)
    ensures Ended(Step(s, c, a), c, false)
  {
  }

  lemma SignallingFailureEnds(s: State, c: Call, a: Action)
    requires Inv(s, c) && FailsAt(s, c, a) && (s.pc.ExchangeInited? || s.pc.UserFound? || s.pc.Signalled?)
    ensures Ended(Step(s, c, a), c, false)
  {
  }

  lemma LateFailureEnds(s: State, c: Call, a: Action)
    requires Inv(s, c) && FailsAt(s, c, a) && PastAnswer(s.pc)
    ensures Ended(Step(s, c, a), c, false)
  {
  }

  lemma AwaitEnds(s: State, c: Call)
    requires Inv(s, c) && s.pc.Connected?
    ensures Ended(Step(s, c, Await(true)), c, true)
  {
  }

  /** Every failure of every step ends the call, with both entries gone; so does the end of a connected call. */
  lemma FailureEnds(s: State, c: Call, a: Action)
    requires Inv(s, c) && (FailsAt(s, c, a) || (s.pc.Connected? && a == Await(true)))
    ensures Ended(Step(s, c, a), c, a == Await(true))
  {
    if a == Await(true) {
      AwaitEnds(s, c);
    } else if PastAnswer(s.pc) {
      LateFailureEnds(s, c, a);
    } else if s.pc.ExchangeInited? || s.pc.UserFound? || s.pc.Signalled? {
      SignallingFailureEnds(s, c, a);
    } else {
      EarlyFailureEnds(s, c, a);
    }
  }

  /** The states before connectCall in which an incoming call can arrive: the peer is unknown. */
  ghost predicate Unknown(s: State, c: Call) {
    && c.Valid() && !c.outgoing && s.pc.Before? && c.peer !in s.waitConnect && s.forgetting == {}
    && !s.requested && !s.accepted && s.senders == [] && s.sent == 0 && c.peer !in s.p2pConfigs
    && (forall u | u in s.p2pConfigs :: s.p2pConfigs[u].chan < s.chans)
    && (forall u, v | u in s.p2pConfigs && v in s.p2pConfigs && u != v :: s.p2pConfigs[u].chan != s.p2pConfigs[v].chan)
  }

  /** A PhoneCallRequested update is what makes an incoming call ready for connectCall. */
  lemma RequestMakesReady(s: State, c: Call)
    requires Unknown(s, c)
    ensures Init(Step(s, c, OnRequested(true)), c)
  {
  }

  /** A second one records the call again, and keeps the configuration there is. */
  lemma RequestKeepsConfig(s: State, c: Call, ok: bool)
    requires c.Admin() in s.p2pConfigs || !ok
    ensures var r := Step(s, c, OnRequested(ok));
            r.p2pConfigs == s.p2pConfigs && r.inputCalls == s.inputCalls[c.Admin() := c.id]
  {
  }

  /** The updates that carry a call's ID record it, for the other party. */
  lemma UpdatesRecordCall(s: State, c: Call, a: Action)
    requires Possible(s, c, a) && (a.OnWaiting? || a.OnAccepted? || a.OnRequested?)
    ensures var u := if a.OnRequested? then c.Admin() else c.Participant();
            Step(s, c, a).inputCalls == s.inputCalls[u := c.id]
  {
  }

  /** A hang-up that connectCall's select hears: the call fails, and the discard handler forgets it. */
  lemma DiscardEndsCall(s: State, c: Call)
    requires Inv(s, c) && s.pc.Signalled? && (c.outgoing ==> s.requested)
    requires c.peer in s.inputCalls && s.inputCalls[c.peer] == c.id
    ensures var r := Run(s, c, [] + [OnDiscarded(c.peer)] + [Receive(|s.senders|)] + [Forget(c.peer)]);
            && r.pc == Done(false) && r.senders == s.senders
            && c.peer !in r.inputCalls && c.peer !in r.p2pConfigs && c.peer !in r.waitConnect
  {
    var n := |s.senders|;
    RunSnoc(s, c, [], OnDiscarded(c.peer));
    var s1 := Step(s, c, OnDiscarded(c.peer));
    DiscardIsHeard(s, c);
    RunSnoc(s, c, [] + [OnDiscarded(c.peer)], Receive(n));
    var s2 := Step(s1, c, Receive(n));
    RunSnoc(s, c, [] + [OnDiscarded(c.peer)] + [Receive(n)], Forget(c.peer));
    DiscardIsReceived(s1, c, n, s.senders);
  }

  lemma DiscardIsReceived(s: State, c: Call, n: nat, others: seq<Sender>)
    requires CanReceive(s, c, n) && !s.senders[n].ok && |s.senders| == n + 1 && s.senders[..n] == others
    ensures var r := Step(s, c, Receive(n));
            && r.pc == Done(false) && r.senders == others && s.senders[n].user in r.forgetting
            && c.peer !in r.waitConnect && c.peer !in r.p2pConfigs
  {
  }

  lemma DiscardIsHeard(s: State, c: Call)
    requires Inv(s, c) && s.pc.Signalled? && (c.outgoing ==> s.requested)
    requires c.peer in s.inputCalls && s.inputCalls[c.peer] == c.id
    ensures var r := Step(s, c, OnDiscarded(c.peer));
            && r.pc.Signalled? && |r.senders| == |s.senders| + 1 && s.senders <= r.senders && CanReceive(r, c, |s.senders|)
            && !r.senders[|s.senders|].ok && r.senders[|s.senders|].user == c.peer
            && c.peer in r.waitConnect && r.p2pConfigs == s.p2pConfigs
  {
  }

  /** A hang-up of a call without a configuration only forgets it. */
  lemma IdleDiscardForgets(s: State, c: Call, u: int)
    requires u !in s.p2pConfigs && Possible(s, c, OnDiscarded(u))
    ensures Step(s, c, OnDiscarded(u)) == s.(inputCalls := s.inputCalls - {u})
  {
  }

  // ----- which handlers return from their send -----

  /** Handlers have their own numbers, all below `sent`. */
  ghost predicate Numbered(s: State) {
    && (forall m | m in s.senders :: m.id < s.sent)
    && forall i, j | 0 <= i < j < |s.senders| :: s.senders[i].id != s.senders[j].id
  }

  ghost predicate Blocked(s: State, n: nat) {
    exists m :: m in s.senders && m.id == n
  }

  /** The number of the handler connectCall has received from, if it has received. */
  function Taken(s: State, c: Call, acts: seq<Action>): Option<nat> {
    if acts == [] then None else
    var k := |acts| - 1;
    var before, a := Run(s, c, acts[..k]), acts[k];
    if a.Receive? && CanReceive(before, c, a.i) then Some(before.senders[a.i].id) else Taken(s, c, acts[..k])
  }

  /** From `s` to `r` at most one more handler has come to its send. */
  ghost predicate Grows(s: State, r: State) {
    || (r.senders == s.senders && r.sent == s.sent)
    || (exists m: Sender :: m.id == s.sent && r.senders == s.senders + [m] && r.sent == s.sent + 1)
  }

  /** From `s` to `r` handler `i` of those blocked has been received from. */
  ghost predicate Releases(s: State, r: State, i: nat) {
    i < |s.senders| && r.senders == s.senders[..i] + s.senders[i + 1..] && r.sent == s.sent
  }

  lemma UpdateGrows(s: State, c: Call, a: Action)
    ensures Grows(s, HandlerStep(s, c, a))
  {
    var r := HandlerStep(s, c, a);
    if r.senders != s.senders {
      var m := r.senders[|s.senders|];
      assert r.senders == s.senders + [m];
    }
  }

  /** A step either leaves the blocked handlers, perhaps with one more, or receives from one of them. */
  lemma StepOnSenders(s: State, c: Call, a: Action)
    ensures var r := Step(s, c, a);
            if a.Receive? && CanReceive(s, c, a.i) then Releases(s, r, a.i) && (r.pc.Answered? || r.pc.Done?)
            else Grows(s, r)
  {
    UpdateGrows(s, c, a);
  }

  lemma GrowthKeeps(s: State, r: State)
    requires Numbered(s) && Grows(s, r)
    ensures Numbered(r) && forall n: nat :: Blocked(r, n) <==> Blocked(s, n) || s.sent <= n < r.sent
  {
    if r.sent != s.sent {
      assert r.senders[|s.senders|] in r.senders;
    }
  }

  lemma ReleaseKeeps(s: State, r: State, i: nat)
    requires Numbered(s) && Releases(s, r, i)
    ensures Numbered(r) && forall n: nat :: Blocked(r, n) <==> Blocked(s, n) && n != s.senders[i].id
  {
    forall n: nat | Blocked(s, n) && n != s.senders[i].id ensures Blocked(r, n) {
      var j :| 0 <= j < |s.senders| && s.senders[j].id == n;
      assert r.senders[if j < i then j else j - 1] == s.senders[j];
    }
  }

  predicate PastSelect(pc: Pc) {
    PastAnswer(pc) || pc.Done?
  }

  lemma StaysPastSelect(s: State, c: Call, a: Action)
    requires PastSelect(s.pc)
    ensures PastSelect(Step(s, c, a).pc)
  {
    LateStepKeepsSenders(s, c, a);
  }

  /**
    The handlers that return are the one connectCall received from, and no other: of all that ever come to
    their send, at most one.
  */
  lemma {:induction false} ReturnsIffTaken(s: State, c: Call, acts: seq<Action>)
    requires Init(s, c)
    ensures var r := Run(s, c, acts);
            && Numbered(r) && (Taken(s, c, acts).Some? ==> PastSelect(r.pc) && Taken(s, c, acts).value < r.sent)
            && forall n: nat | n < r.sent :: !Blocked(r, n) <==> Taken(s, c, acts) == Some(n)
  {
    if acts != [] {
      var k := |acts| - 1;
      var before, a := Run(s, c, acts[..k]), acts[k];
      ReturnsIffTaken(s, c, acts[..k]);
      StepOnSenders(before, c, a);
      if a.Receive? && CanReceive(before, c, a.i) {
        ReleaseKeeps(before, Step(before, c, a), a.i);
      } else {
        GrowthKeeps(before, Step(before, c, a));
      }
      if PastSelect(before.pc) {
        StaysPastSelect(before, c, a);
      }
    }
  }

  /** connectCall has yet to reach its select, or is in it, with `chan` as its channel. */
  predicate Heard(s: State, c: Call, chan: nat) {
    !PastSelect(s.pc) && c.peer in s.p2pConfigs && s.p2pConfigs[c.peer].chan == chan
  }

  lemma UpdateKeepsUnheard(s: State, c: Call, a: Action, chan: nat)
    requires Inv(s, c) && !Heard(s, c, chan) && chan < s.chans && Possible(s, c, a)
    ensures var r := HandlerStep(s, c, a); !Heard(r, c, chan) && chan < r.chans
  {
  }

  lemma ConnectKeepsUnheard(s: State, c: Call, a: Action, chan: nat)
    requires Inv(s, c) && !Heard(s, c, chan) && chan < s.chans && !PastSelect(s.pc)
    ensures var r := ConnectStep(s, c, a); !Heard(r, c, chan) && chan < r.chans
  {
  }

  lemma UpdatesGrowChans(s: State, c: Call, a: Action)
    ensures s.chans <= HandlerStep(s, c, a).chans
  {
  }

  lemma ConnectGrowsChans(s: State, c: Call, a: Action)
    ensures s.chans <= ConnectStep(s, c, a).chans
  {
  }

  lemma NeverHeardAgain(s: State, c: Call, a: Action, chan: nat)
    requires Inv(s, c) && !Heard(s, c, chan) && chan < s.chans
    ensures var r := Step(s, c, a); !Heard(r, c, chan) && chan < r.chans
  {
    UpdatesGrowChans(s, c, a);
    ConnectGrowsChans(s, c, a);
    if PastSelect(s.pc) {
      StaysPastSelect(s, c, a);
    } else if Possible(s, c, a) {
      if IsUpdate(a) {
        UpdateKeepsUnheard(s, c, a, chan);
      } else {
        ConnectKeepsUnheard(s, c, a, chan);
      }
    }
  }

  /** A handler whose channel is not to be heard again stays blocked, whatever happens. */
  lemma {:induction false} UnheardStaysBlocked(s: State, c: Call, acts: seq<Action>, m: Sender)
    requires Inv(s, c) && m in s.senders && !Heard(s, c, m.chan)
    ensures var r := Run(s, c, acts); m in r.senders && !Heard(r, c, m.chan) && m.chan < r.chans
  {
    if acts != [] {
      var k := |acts| - 1;
      var before, a := Run(s, c, acts[..k]), acts[k];
      UnheardStaysBlocked(s, c, acts[..k], m);
      RunKeepsInv(s, c, acts[..k]);
      NeverHeardAgain(before, c, a, m.chan);
      StepOnSenders(before, c, a);
    }
  }

  /** The next successful step on the way to the select. */
  function NextStep(pc: Pc): Action {
    match pc
    case Before => Enter
    case Entered => GetConfig(true)
    case HasConfig => CreateCall(true)
    case CallCreated => SetSources(true)
    case SourcesSet => InitExchange(true)
    case ExchangeInited => FindUser(true)
    case _ => Signal(true)
  }

  /** How many steps connectCall is from its select. */
  function ToSelect(pc: Pc): nat {
    match pc
    case Before => 7
    case Entered => 6
    case HasConfig => 5
    case CallCreated => 4
    case SourcesSet => 3
    case ExchangeInited => 2
    case UserFound => 1
    case _ => 0
  }

  /** Before the exchange, the steps only need the configuration to be there. */
  lemma EarlyStepGetsCloser(s: State, c: Call, chan: nat)
    requires Heard(s, c, chan) && ToSelect(s.pc) > 3
    ensures var r := Step(s, c, NextStep(s.pc));
            Heard(r, c, chan) && r.senders == s.senders && r.sent == s.sent && ToSelect(r.pc) < ToSelect(s.pc)
  {
  }

  lemma LateStepGetsCloser(s: State, c: Call, chan: nat)
    requires Heard(s, c, chan) && 0 < ToSelect(s.pc) <= 3
    ensures var r := Step(s, c, NextStep(s.pc));
            Heard(r, c, chan) && r.senders == s.senders && r.sent == s.sent && ToSelect(r.pc) < ToSelect(s.pc)
  {
  }

  lemma NextStepGetsCloser(s: State, c: Call, chan: nat)
    requires Heard(s, c, chan) && !s.pc.Signalled?
    ensures var r := Step(s, c, NextStep(s.pc));
            Heard(r, c, chan) && r.senders == s.senders && r.sent == s.sent && ToSelect(r.pc) < ToSelect(s.pc)
  {
    if ToSelect(s.pc) > 3 {
      EarlyStepGetsCloser(s, c, chan);
    } else {
      LateStepGetsCloser(s, c, chan);
    }
  }

  /** connectCall can get to its select with the blocked handlers as they are. */
  lemma {:induction false} ReachesSelect(s: State, c: Call, chan: nat) returns (more: seq<Action>)
    requires Heard(s, c, chan)
    ensures var r := Run(s, c, more); r.pc.Signalled? && Heard(r, c, chan) && r.senders == s.senders && r.sent == s.sent
    decreases ToSelect(s.pc)
  {
    if s.pc.Signalled? {
      return [];
    }
    NextStepGetsCloser(s, c, chan);
    var rest := ReachesSelect(Step(s, c, NextStep(s.pc)), c, chan);
    RunCons(s, c, NextStep(s.pc), rest);
    return [NextStep(s.pc)] + rest;
  }

  lemma HeardCanReturn(s: State, c: Call, i: nat) returns (more: seq<Action>)
    requires Numbered(s) && i < |s.senders| && Heard(s, c, s.senders[i].chan)
    ensures !Blocked(Run(s, c, more), s.senders[i].id)
  {
    var setup := ReachesSelect(s, c, s.senders[i].chan);
    var r := Run(s, c, setup);
    RunSnoc(s, c, setup, Receive(i));
    StepOnSenders(r, c, Receive(i));
    ReleaseKeeps(r, Step(r, c, Receive(i)), i);
    return setup + [Receive(i)];
  }

  /**
    Exactly which blocked handlers may yet return: those that send on the call's own channel while connectCall
    has not left its select. All others are blocked for good.
  */
  lemma ReturnsIffHeard(s: State, c: Call, acts: seq<Action>, i: nat)
    requires Init(s, c) && i < |Run(s, c, acts).senders|
    ensures var r := Run(s, c, acts);
            (exists more :: !Blocked(Run(r, c, more), r.senders[i].id)) <==> Heard(r, c, r.senders[i].chan)
  {
    var r := Run(s, c, acts);
    var m := r.senders[i];
    ReturnsIffTaken(s, c, acts);
    InvHolds(s, c, acts);
    if Heard(r, c, m.chan) {
      var more := HeardCanReturn(r, c, i);
    } else {
      forall more ensures Blocked(Run(r, c, more), m.id) {
        UnheardStaysBlocked(r, c, more, m);
      }
    }
  }

  /** The whole call, and then the peer hangs up. */
  function HangUp(c: Call): seq<Action> {
    Prepare() + Announce() + Answer(c) + Finish() + [OnDiscarded(c.peer)]
  }

  /** "An update handler returns" is false: in either role, the handler of a hang-up during the call does not. */
  lemma LateDiscardBlocks(s: State, c: Call)
    requires Init(s, c)
    ensures var r := Run(s, c, HangUp(c));
            && r.pc.Connected? && |r.senders| == 1 && r.senders[0].user == c.peer && !r.senders[0].ok
            && forall more :: Blocked(Run(r, c, more), r.senders[0].id)
  {
    var call := Prepare() + Announce() + Answer(c) + Finish();
    HandshakeCompletes(s, c);
    InvHolds(s, c, call);
    RunSnoc(s, c, call, OnDiscarded(c.peer));
    DiscardSends(Run(s, c, call), c);
    InvHolds(s, c, HangUp(c));
    var r := Run(s, c, HangUp(c));
    forall more ensures Blocked(Run(r, c, more), r.senders[0].id) {
      UnheardStaysBlocked(r, c, more, r.senders[0]);
    }
  }

  lemma DiscardSends(s: State, c: Call)
    requires Inv(s, c) && s.pc.Connected? && s.senders == []
    ensures var r := Step(s, c, OnDiscarded(c.peer));
            r.pc.Connected? && |r.senders| == 1 && r.senders[0].user == c.peer && !r.senders[0].ok
  {
  }
}

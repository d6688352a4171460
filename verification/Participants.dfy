/**
  Who is in a group call and whose camera or screen is being received: the participants-update handler of
  src/vc/ubot/handle_updates.go and updateSources of src/vc/ubot/update_sources.go.
*/
module Participants {
  import opened Common

  datatype Device = Camera | Screen

  /** One entry of a participants update; a video is given by its endpoint. */
  datatype Participant = Participant(id: int, left: bool, video: Option<string>, presentation: Option<string>)
  {
    function On(d: Device): Option<string> {
      if d.Camera? then video else presentation
    }
  }

  /** types.CallSources. */
  datatype Sources = Sources(camera: map<int, string>, screen: map<int, string>)
  {
    /** A Go map read: "" for a missing key. */
    function At(d: Device, id: int): string {
      var m := if d.Camera? then camera else screen;
      if id in m then m[id] else ""
    }

    function Put(d: Device, id: int, e: string): Sources {
      if d.Camera? then this.(camera := camera[id := e]) else this.(screen := screen[id := e])
    }

    function Drop(d: Device, id: int): Sources {
      if d.Camera? then this.(camera := camera - {id}) else this.(screen := screen - {id})
    }
  }

  /** The calls made to the binding. */
  datatype Op = Add(d: Device, id: int, endpoint: string) | Remove(d: Device, id: int, endpoint: string)

  /** One chat's state: its participants, its sources if it has a record of them, and the binding calls so far. */
  datatype View = View(participants: map<int, Participant>, sources: Option<Sources>, ops: seq<Op>)

  /** What one mention does to one device of its participant. */
  function DeviceStep(v: View, d: Device, id: int, now: Option<string>): View
    requires v.sources.Some?
  {
    var src := v.sources.value;
    var was := src.At(d, id);
    if (was != "") == now.Some? then v
    else if now.Some? then v.(sources := Some(src.Put(d, id, now.value)), ops := v.ops + [Add(d, id, now.value)])
    else v.(sources := Some(src.Drop(d, id)), ops := v.ops + [Remove(d, id, was)])
  }

  function Mention(v: View, p: Participant): View {
    if p.left then
      v.(participants := v.participants - {p.id},
         sources := if v.sources.None? then None else Some(v.sources.value.Drop(Camera, p.id).Drop(Screen, p.id)))
    else
      var v1 := v.(participants := v.participants[p.id := p]);
      if v1.sources.None? then v1
      else DeviceStep(DeviceStep(v1, Camera, p.id, p.video), Screen, p.id, p.presentation)
  }

  function MentionAll(v: View, us: seq<Participant>): View {
    if us == [] then v else Mention(MentionAll(v, us[..|us| - 1]), us[|us| - 1])
  }

  // ----- the reference: the last word on each participant -----

  /** The position of the last mention of `id`. */
  function LastMention(us: seq<Participant>, id: int): (i: Option<nat>)
    ensures i.Some? ==> i.value < |us| && us[i.value].id == id
  {
    if us == [] then None
    else if us[|us| - 1].id == id then Some(|us| - 1)
    else LastMention(us[..|us| - 1], id)
  }

  /** A source is recorded: as everywhere in the source, an empty endpoint counts as none. */
  predicate Recorded(v: View, d: Device, id: int) {
    v.sources.Some? && v.sources.value.At(d, id) != ""
  }

  /** Participant `id` is in none of the three maps. */
  ghost predicate Gone(v: View, id: int) {
    && id !in v.participants
    && (v.sources.Some? ==> id !in v.sources.value.camera && id !in v.sources.value.screen)
  }

  /** After `r`, participant `id` agrees with the mention `p` of it. */
  ghost predicate Agrees(r: View, id: int, p: Participant) {
    if p.left then Gone(r, id)
    else
      && id in r.participants && r.participants[id] == p
      && (r.sources.Some? ==> forall d: Device :: Recorded(r, d, id) <==> p.On(d).Some?)
  }

  /** Participant `id` is as it was. */
  ghost predicate SameFor(v: View, r: View, id: int) {
    && (id in v.participants <==> id in r.participants)
    && (id in v.participants ==> v.participants[id] == r.participants[id])
    && v.sources.Some? == r.sources.Some?
    && (v.sources.Some? ==> SameSources(v.sources.value, r.sources.value, id))
  }

  ghost predicate SameSources(s: Sources, r: Sources, id: int) {
    && (id in s.camera <==> id in r.camera) && (id in s.screen <==> id in r.screen)
    && forall d: Device :: s.At(d, id) == r.At(d, id)
  }

  /** A mention whose video has no name, and nothing is recorded that it could confirm. */
  predicate Nameless(before: View, d: Device, p: Participant) {
    !p.left && p.On(d) == Some("") && before.sources.Some? && !Recorded(before, d, p.id)
  }

  /** One mention settles both devices of its participant, as far as they are named, and no other participant. */
  lemma MentionSettles(v: View, p: Participant)
    ensures var r := Mention(v, p);
            && (forall id | id != p.id :: SameFor(v, r, id))
            && (p.left ==> Gone(r, p.id))
            && (!p.left ==> p.id in r.participants && r.participants[p.id] == p)
            && r.sources.Some? == v.sources.Some?
    ensures forall d: Device | v.sources.Some? && !p.left ::
              (Recorded(Mention(v, p), d, p.id) <==> p.On(d).Some?) <==> !Nameless(v, d, p)
  {
    if !p.left && v.sources.Some? {
      var v1 := v.(participants := v.participants[p.id := p]);
      DeviceStepSettles(v1, Camera, p.id, p.video);
      DeviceStepSettles(DeviceStep(v1, Camera, p.id, p.video), Screen, p.id, p.presentation);
    }
  }

  lemma DeviceStepSettles(v: View, d: Device, id: int, now: Option<string>)
    requires v.sources.Some?
    ensures var r := DeviceStep(v, d, id, now);
            && r.sources.Some? && r.participants == v.participants
            && (forall i | i != id :: SameSources(v.sources.value, r.sources.value, i))
            && (forall e: Device | e != d :: r.sources.value.At(e, id) == v.sources.value.At(e, id))
            && ((Recorded(r, d, id) <==> now.Some?) <==> !(now == Some("") && !Recorded(v, d, id)))
  {
  }

  lemma AgreesIffNamed(v: View, p: Participant)
    ensures Agrees(Mention(v, p), p.id, p) <==> forall d: Device :: !Nameless(v, d, p)
  {
    MentionSettles(v, p);
  }

  /**
    After any list of mentions, with repetitions, each participant agrees with its last mention: gone from all
    three maps when it left, else listed, with a camera or screen source recorded exactly when it has that video.
    The one exception is exact: a nameless video that nothing was recorded for when it was last mentioned. A
    participant not mentioned is as it was.
  */
  lemma {:induction false} LastMentionWins(v: View, us: seq<Participant>, id: int)
    ensures var r := MentionAll(v, us);
            match LastMention(us, id)
            case None => SameFor(v, r, id)
            case Some(i) => Agrees(r, id, us[i]) <==> forall d: Device :: !Nameless(MentionAll(v, us[..i]), d, us[i])
  {
    if us != [] {
      var n := |us| - 1;
      var before, last := MentionAll(v, us[..n]), us[n];
      MentionSettles(before, last);
      if last.id == id {
        AgreesIffNamed(before, last);
        assert LastMention(us, id) == Some(n) && MentionAll(v, us[..n]) == before;
        assert MentionAll(v, us) == Mention(before, last);
      } else {
        LastMentionWins(v, us[..n], id);
        OtherMentionsKeep(before, MentionAll(v, us), id);
        if LastMention(us, id).Some? {
          var i := LastMention(us, id).value;
          assert us[..n][..i] == us[..i] && us[..n][i] == us[i];
        }
      }
    }
  }

  lemma OtherMentionsKeep(v: View, r: View, id: int)
    requires SameFor(v, r, id)
    ensures forall p :: Agrees(v, id, p) <==> Agrees(r, id, p)
  {
  }

  /** In particular it wins whenever its videos are named, whatever the other mentions are. */
  lemma NamedMentionWins(v: View, us: seq<Participant>, id: int)
    requires LastMention(us, id).Some?
    requires var p := us[LastMention(us, id).value]; p.video != Some("") && p.presentation != Some("")
    ensures Agrees(MentionAll(v, us), id, us[LastMention(us, id).value])
  {
    LastMentionWins(v, us, id);
    var p := us[LastMention(us, id).value];
    assert forall d: Device :: p.On(d) != Some("");
  }

  /** The same, device by device. */
  lemma {:induction false} RecordedIffPresent(v: View, us: seq<Participant>, id: int, d: Device)
    requires v.sources.Some? && LastMention(us, id).Some? && !us[LastMention(us, id).value].left
    ensures var i := LastMention(us, id).value;
            (Recorded(MentionAll(v, us), d, id) <==> us[i].On(d).Some?)
            <==> !Nameless(MentionAll(v, us[..i]), d, us[i])
  {
    var n := |us| - 1;
    MentionsKeepSources(v, us[..n]);
    MentionSettles(MentionAll(v, us[..n]), us[n]);
    if us[n].id != id {
      RecordedIffPresent(v, us[..n], id, d);
      var i := LastMention(us, id).value;
      assert us[..n][..i] == us[..i] && us[..n][i] == us[i];
    }
  }

  lemma {:induction false} MentionsKeepSources(v: View, us: seq<Participant>)
    ensures MentionAll(v, us).sources.Some? == v.sources.Some?
  {
    if us != [] {
      MentionsKeepSources(v, us[..|us| - 1]);
      MentionSettles(MentionAll(v, us[..|us| - 1]), us[|us| - 1]);
    }
  }

  /** "A source is recorded iff the video is present" is false: a first video with an empty endpoint is not. */
  lemma EmptyEndpointIsNotRecorded(id: int)
    ensures var p := Participant(id, false, Some(""), None);
            var r := MentionAll(View(map[], Some(NO_SOURCES), []), [p]);
            p.On(Camera).Some? && r.sources.Some? && !Recorded(r, Camera, id) && !Agrees(r, id, p)
  {
    var p := Participant(id, false, Some(""), None);
    var v := View(map[], Some(NO_SOURCES), []);
    assert [p][..0] == [];
    assert MentionAll(v, [p]) == Mention(v, p);
    MentionSettles(v, p);
    assert Nameless(v, Camera, p);
  }

  // ----- what the binding is asked to remove -----

  /** The latest binding call for one device of one participant. */
  function LastOp(ops: seq<Op>, d: Device, id: int): Option<Op> {
    if ops == [] then None
    else var o := ops[|ops| - 1];
      if o.d == d && o.id == id then Some(o) else LastOp(ops[..|ops| - 1], d, id)
  }

  /** Every removal names the endpoint last added for its device and participant. */
  ghost predicate RemovalsMatch(ops: seq<Op>) {
    forall j | 0 <= j < |ops| && ops[j].Remove? ::
      LastOp(ops[..j], ops[j].d, ops[j].id) == Some(Add(ops[j].d, ops[j].id, ops[j].endpoint))
  }

  /** Every recorded source is the endpoint last added. */
  ghost predicate RecordedAreAdded(v: View) {
    v.sources.Some? ==> forall d: Device, id: int ::
      v.sources.value.At(d, id) != "" ==> LastOp(v.ops, d, id) == Some(Add(d, id, v.sources.value.At(d, id)))
  }

  lemma OpsSnoc(ops: seq<Op>, o: Op)
    requires RemovalsMatch(ops)
    requires o.Remove? ==> LastOp(ops, o.d, o.id) == Some(Add(o.d, o.id, o.endpoint))
    ensures RemovalsMatch(ops + [o])
    ensures forall d: Device, id: int :: LastOp(ops + [o], d, id) ==
              if o.d == d && o.id == id then Some(o) else LastOp(ops, d, id)
  {
    assert (ops + [o])[..|ops|] == ops;
    assert forall j | 0 <= j < |ops| :: (ops + [o])[..j] == ops[..j];
  }

  lemma DeviceStepMatches(v: View, d: Device, id: int, now: Option<string>)
    requires v.sources.Some? && RemovalsMatch(v.ops) && RecordedAreAdded(v)
    ensures var r := DeviceStep(v, d, id, now); RemovalsMatch(r.ops) && RecordedAreAdded(r)
  {
    var was := v.sources.value.At(d, id);
    if (was != "") != now.Some? {
      OpsSnoc(v.ops, if now.Some? then Add(d, id, now.value) else Remove(d, id, was));
    }
  }

  /** RemoveIncomingVideo is only ever called with the endpoint last added for that participant and device. */
  lemma {:induction false} RemovalsNameTheLastAdded(v: View, us: seq<Participant>)
    requires RemovalsMatch(v.ops) && RecordedAreAdded(v)
    ensures var r := MentionAll(v, us); RemovalsMatch(r.ops) && RecordedAreAdded(r)
  {
    if us != [] {
      var before, p := MentionAll(v, us[..|us| - 1]), us[|us| - 1];
      RemovalsNameTheLastAdded(v, us[..|us| - 1]);
      if !p.left && before.sources.Some? {
        var v1 := before.(participants := before.participants[p.id := p]);
        DeviceStepMatches(v1, Camera, p.id, p.video);
        DeviceStepMatches(DeviceStep(v1, Camera, p.id, p.video), Screen, p.id, p.presentation);
      }
    }
  }

  // ----- what the binding is asked for -----

  /** What one mention of `p.id` leaves as the latest binding call for a device, by what was recorded before it. */
  function Asked(before: View, p: Participant, d: Device): Option<Op> {
    if before.sources.None? || p.left || p.On(d).Some? == Recorded(before, d, p.id) then LastOp(before.ops, d, p.id)
    else if p.On(d).Some? then Some(Add(d, p.id, p.On(d).value))
    else Some(Remove(d, p.id, before.sources.value.At(d, p.id)))
  }

  lemma LastOpSnoc(ops: seq<Op>, o: Op, d: Device, id: int)
    ensures LastOp(ops + [o], d, id) == if o.d == d && o.id == id then Some(o) else LastOp(ops, d, id)
  {
    assert (ops + [o])[..|ops|] == ops;
  }

  lemma DeviceStepAsks(v: View, d: Device, id: int, now: Option<string>, e: Device, i: int)
    requires v.sources.Some?
    ensures LastOp(DeviceStep(v, d, id, now).ops, e, i) ==
              if e != d || i != id || now.Some? == Recorded(v, d, id) then LastOp(v.ops, e, i)
              else if now.Some? then Some(Add(d, id, now.value)) else Some(Remove(d, id, v.sources.value.At(d, id)))
  {
    var was := v.sources.value.At(d, id);
    if (was != "") != now.Some? {
      LastOpSnoc(v.ops, if now.Some? then Add(d, id, now.value) else Remove(d, id, was), e, i);
    }
  }

  lemma MentionAsks(v: View, p: Participant, d: Device, id: int)
    ensures LastOp(Mention(v, p).ops, d, id) == if id == p.id then Asked(v, p, d) else LastOp(v.ops, d, id)
  {
    if !p.left && v.sources.Some? {
      var v1 := v.(participants := v.participants[p.id := p]);
      var v2 := DeviceStep(v1, Camera, p.id, p.video);
      DeviceStepAsks(v1, Camera, p.id, p.video, d, id);
      DeviceStepSettles(v1, Camera, p.id, p.video);
      DeviceStepAsks(v2, Screen, p.id, p.presentation, d, id);
    }
  }

  /**
    After any list the latest binding call for a device is the one its participant's last mention asks for: to
    add a video that was not recorded, to remove a recorded one that is no more, and otherwise the one before.
  */
  lemma {:induction false} LastMentionAsks(v: View, us: seq<Participant>, id: int, d: Device)
    ensures LastOp(MentionAll(v, us).ops, d, id) ==
            match LastMention(us, id)
            case None => LastOp(v.ops, d, id)
            case Some(i) => Asked(MentionAll(v, us[..i]), us[i], d)
  {
    if us != [] {
      var n := |us| - 1;
      var before, last := MentionAll(v, us[..n]), us[n];
      MentionAsks(before, last, d, id);
      assert MentionAll(v, us) == Mention(before, last);
      if last.id != id {
        LastMentionAsks(v, us[..n], id, d);
        if LastMention(us, id).Some? {
          var i := LastMention(us, id).value;
          assert us[..n][..i] == us[..i] && us[..n][i] == us[i];
        }
      }
    }
  }

  predicate IsAdd(o: Option<Op>) {
    o.Some? && o.value.Add?
  }

  /** A video gone from its participant and from the record, but not from the binding: its participant had left. */
  predicate LeftBehind(before: View, d: Device, p: Participant) {
    p.On(d).None? && !Recorded(before, d, p.id) && IsAdd(LastOp(before.ops, d, p.id))
  }

  /**
    The binding stops receiving a recorded video that is no more; apart from that, it receives what is recorded,
    with two exact exceptions: a nameless video, and one left behind by a participant that left.
  */
  lemma BindingFollowsRecord(v: View, us: seq<Participant>, id: int, d: Device)
    requires v.sources.Some? && RemovalsMatch(v.ops) && RecordedAreAdded(v)
    requires LastMention(us, id).Some? && !us[LastMention(us, id).value].left
    ensures var i := LastMention(us, id).value;
            var before, op := MentionAll(v, us[..i]), LastOp(MentionAll(v, us).ops, d, id);
            && before.sources.Some?
            && (us[i].On(d).None? && Recorded(before, d, id) ==>
                  op == Some(Remove(d, id, before.sources.value.At(d, id))))
            && ((IsAdd(op) <==> Recorded(MentionAll(v, us), d, id))
                <==> !Nameless(before, d, us[i]) && !LeftBehind(before, d, us[i]))
  {
    var i := LastMention(us, id).value;
    MentionsKeepSources(v, us[..i]);
    RemovalsNameTheLastAdded(v, us[..i]);
    RecordedIffPresent(v, us, id, d);
    LastMentionAsks(v, us, id, d);
  }

  lemma MentionAllSnoc(v: View, us: seq<Participant>, p: Participant)
    ensures MentionAll(v, us + [p]) == Mention(MentionAll(v, us), p)
  {
    assert (us + [p])[..|us|] == us;
  }

  /** A camera is mentioned, and its participant leaves. */
  lemma LeaverIsForgotten(v: View, id: int, e: string)
    requires e != "" && v.sources == Some(NO_SOURCES) && v.ops == []
    ensures var r := Mention(Mention(v, Participant(id, false, Some(e), None)), Participant(id, true, None, None));
            r.sources == Some(NO_SOURCES) && r.ops == [Add(Camera, id, e)]
  {
    var on := Participant(id, false, Some(e), None);
    var v1 := Mention(v, on);
    assert v1.sources == Some(Sources(map[id := e], map[])) && v1.ops == [Add(Camera, id, e)];
    var r := Mention(v1, Participant(id, true, None, None));
    assert r.sources.value.camera == map[] && r.sources.value.screen == map[];
  }

  /** "The binding receives what is recorded" is false: whoever leaves with a video is still received on return. */
  lemma LeaverIsStillReceived(id: int, e: string)
    requires e != ""
    ensures var on, left, off := Participant(id, false, Some(e), None), Participant(id, true, None, None), Participant(id, false, None, None);
            var r := MentionAll(View(map[], Some(NO_SOURCES), []), [] + [on] + [left] + [off]);
            !Recorded(r, Camera, id) && r.ops == [Add(Camera, id, e)] && LastOp(r.ops, Camera, id) == Some(Add(Camera, id, e))
  {
    var on, left, off := Participant(id, false, Some(e), None), Participant(id, true, None, None), Participant(id, false, None, None);
    var v := View(map[], Some(NO_SOURCES), []);
    MentionAllSnoc(v, [], on);
    MentionAllSnoc(v, [] + [on], left);
    MentionAllSnoc(v, [] + [on] + [left], off);
    LeaverIsForgotten(v, id, e);
    LastOpSnoc([], Add(Camera, id, e), Camera, id);
    assert [] + [Add(Camera, id, e)] == [Add(Camera, id, e)];
  }

  /** A recorded endpoint was recorded before, or is one that a mention of its participant showed on that device. */
  lemma {:induction false} RecordedWasShown(v: View, us: seq<Participant>, id: int, d: Device)
    requires Recorded(MentionAll(v, us), d, id)
    ensures var e := MentionAll(v, us).sources.value.At(d, id);
            || (v.sources.Some? && v.sources.value.At(d, id) == e)
            || Shown(us, d, id, e)
  {
    MentionsKeepSources(v, us);
    if us != [] {
      var n := |us| - 1;
      var before, last := MentionAll(v, us[..n]), us[n];
      MentionsKeepSources(v, us[..n]);
      var e := MentionAll(v, us).sources.value.At(d, id);
      if last.id == id && last.On(d) == Some(e) {
        assert last in us;
      } else {
        MentionRecords(before, last, id, d);
        RecordedWasShown(v, us[..n], id, d);
        assert forall p | p in us[..n] :: p in us;
      }
    }
  }

  lemma MentionRecords(v: View, p: Participant, id: int, d: Device)
    requires v.sources.Some? && Recorded(Mention(v, p), d, id)
    ensures var e := Mention(v, p).sources.value.At(d, id);
            v.sources.value.At(d, id) == e || (p.id == id && p.On(d) == Some(e))
  {
  }

  // ----- the maps as the source updates them -----

  class CallContext {
    var callParticipants: map<int, map<int, Participant>>
    var callSources: map<int, Sources>
    var ops: map<int, seq<Op>>    // the binding calls of each chat

    constructor ()
      ensures callParticipants == map[] && callSources == map[] && ops == map[]
    {
      callParticipants, callSources, ops := map[], map[], map[];
    }

    function ViewOf(chatId: int): View
      reads this
    {
      View(if chatId in callParticipants then callParticipants[chatId] else map[],
           if chatId in callSources then Some(callSources[chatId]) else None,
           if chatId in ops then ops[chatId] else [])
    }

    method Record(chatId: int, o: Op)
      modifies this`ops
      ensures ops == old(ops)[chatId := old(ViewOf(chatId)).ops + [o]]
    {
      ops := ops[chatId := (if chatId in ops then ops[chatId] else []) + [o]];
    }

    /** One device of one mention: start or stop receiving when presence changes. */
    method UpdateDevice(chatId: int, d: Device, id: int, now: Option<string>)
      requires chatId in callSources && chatId in callParticipants
      modifies this`callSources, this`ops
      ensures ViewOf(chatId) == DeviceStep(old(ViewOf(chatId)), d, id, now) && chatId in callSources
      ensures forall c | c != chatId :: ViewOf(c) == old(ViewOf(c))
    {
      var was := callSources[chatId].At(d, id);
      if (was != "") != now.Some? {
        if now.Some? {
          callSources := callSources[chatId := callSources[chatId].Put(d, id, now.value)];
          Record(chatId, Add(d, id, now.value));
        } else {
          Record(chatId, Remove(d, id, was));
          callSources := callSources[chatId := callSources[chatId].Drop(d, id)];
        }
      }
    }

    /** The body of the handler's loop. */
    method UpdateParticipant(chatId: int, p: Participant)
      requires chatId in callParticipants
      modifies this
      ensures ViewOf(chatId) == Mention(old(ViewOf(chatId)), p) && chatId in callParticipants
      ensures forall c | c != chatId :: ViewOf(c) == old(ViewOf(c))
    {
      if p.left {
        callParticipants := callParticipants[chatId := callParticipants[chatId] - {p.id}];
        if chatId in callSources {
          callSources := callSources[chatId := callSources[chatId].Drop(Camera, p.id).Drop(Screen, p.id)];
        }
        return;
      }
      callParticipants := callParticipants[chatId := callParticipants[chatId][p.id := p]];
      if chatId in callSources {
        UpdateDevice(chatId, Camera, p.id, p.video);
        UpdateDevice(chatId, Screen, p.id, p.presentation);
      }
    }

    /** UpdateGroupCallParticipants: the whole list, in order; other chats are not touched. */
    method OnParticipants(chatId: int, us: seq<Participant>)
      modifies this
      ensures ViewOf(chatId) == MentionAll(old(ViewOf(chatId)), us)
      ensures forall c | c != chatId :: ViewOf(c) == old(ViewOf(c))
    {
      if chatId !in callParticipants {
        callParticipants := callParticipants[chatId := map[]];
      }
      for i := 0 to |us|
        invariant chatId in callParticipants
        invariant ViewOf(chatId) == MentionAll(old(ViewOf(chatId)), us[..i])
        invariant forall c | c != chatId :: ViewOf(c) == old(ViewOf(c))
      {
        UpdateParticipant(chatId, us[i]);
        assert us[..i + 1][..i] == us[..i];
      }
      assert us[..|us|] == us;
    }

    /**
      updateSources after GetParticipants returned `ps`: whatever has a named video gets a source unless it has
      one; `addFails` are the AddIncomingVideo calls that fail, the first of which ends it. Recorded sources
      stay the endpoints last added, so the handler above may go on from here.
    */
    method UpdateSources(chatId: int, ps: seq<Participant>, addFails: Op -> bool) returns (ok: bool)
      requires RemovalsMatch(ViewOf(chatId).ops) && RecordedAreAdded(ViewOf(chatId))
      modifies this`callSources, this`ops
      ensures chatId in callSources && RemovalsMatch(ViewOf(chatId).ops) && RecordedAreAdded(ViewOf(chatId))
      ensures Extends(old(SourcesOf(chatId)), callSources[chatId])
      ensures ok ==> forall j | 0 <= j < |ps| :: Covered(callSources[chatId], ps[j])
      ensures Sourced(old(SourcesOf(chatId)), callSources[chatId], ps)
      ensures StopsAtFailure(old(ViewOf(chatId).ops), ViewOf(chatId).ops, addFails, ok)
      ensures forall c | c != chatId :: ViewOf(c) == old(ViewOf(c))
    {
      MakeSources(chatId);
      ok := AddAll(chatId, ps, addFails);
    }

    /** The recorded sources, none when the chat has no record. */
    function SourcesOf(chatId: int): Sources
      reads this
    {
      if chatId in callSources then callSources[chatId] else NO_SOURCES
    }

    method MakeSources(chatId: int)
      requires RecordedAreAdded(ViewOf(chatId))
      modifies this`callSources
      ensures chatId in callSources && callSources[chatId] == old(SourcesOf(chatId))
      ensures RecordedAreAdded(ViewOf(chatId))
      ensures forall c | c != chatId :: ViewOf(c) == old(ViewOf(c))
    {
      if chatId !in callSources {
        callSources := callSources[chatId := NO_SOURCES];
      }
    }

    method AddAll(chatId: int, ps: seq<Participant>, addFails: Op -> bool) returns (ok: bool)
      requires chatId in callSources && RemovalsMatch(ViewOf(chatId).ops) && RecordedAreAdded(ViewOf(chatId))
      modifies this`callSources, this`ops
      ensures chatId in callSources && RemovalsMatch(ViewOf(chatId).ops) && RecordedAreAdded(ViewOf(chatId))
      ensures Extends(old(callSources[chatId]), callSources[chatId])
      ensures ok ==> forall j | 0 <= j < |ps| :: Covered(callSources[chatId], ps[j])
      ensures Sourced(old(callSources[chatId]), callSources[chatId], ps)
      ensures StopsAtFailure(old(ViewOf(chatId).ops), ViewOf(chatId).ops, addFails, ok)
      ensures forall c | c != chatId :: ViewOf(c) == old(ViewOf(c))
    {
      ghost var first := callSources[chatId];
      for i := 0 to |ps|
        invariant chatId in callSources && RemovalsMatch(ViewOf(chatId).ops) && RecordedAreAdded(ViewOf(chatId))
        invariant SourcedSoFar(first, callSources[chatId], ps, i)
        invariant StopsAtFailure(old(ViewOf(chatId).ops), ViewOf(chatId).ops, addFails, true)
        invariant forall c | c != chatId :: ViewOf(c) == old(ViewOf(c))
      {
        ghost var before, ops := callSources[chatId], ViewOf(chatId).ops;
        ok := AddParticipant(chatId, ps[i], addFails);
        GoesOn(old(ViewOf(chatId).ops), ops, ViewOf(chatId).ops, addFails, ok);
        SourcedFurther(first, before, callSources[chatId], ps, i);
        if !ok {
          return;
        }
      }
      ok := true;
    }

    /** Both devices of one participant. */
    method AddParticipant(chatId: int, p: Participant, addFails: Op -> bool) returns (ok: bool)
      requires chatId in callSources && RemovalsMatch(ViewOf(chatId).ops) && RecordedAreAdded(ViewOf(chatId))
      modifies this`callSources, this`ops
      ensures chatId in callSources && RemovalsMatch(ViewOf(chatId).ops) && RecordedAreAdded(ViewOf(chatId))
      ensures Extends(old(callSources[chatId]), callSources[chatId])
      ensures Sourced(old(callSources[chatId]), callSources[chatId], [p])
      ensures ok ==> Covered(callSources[chatId], p)
      ensures StopsAtFailure(old(ViewOf(chatId).ops), ViewOf(chatId).ops, addFails, ok)
      ensures forall c | c != chatId :: ViewOf(c) == old(ViewOf(c))
    {
      ghost var first := callSources[chatId];
      ok := AddDevice(chatId, p, Camera, addFails);
      if ok {
        ghost var before, ops := callSources[chatId], ViewOf(chatId).ops;
        ok := AddDevice(chatId, p, Screen, addFails);
        GoesOn(old(ViewOf(chatId).ops), ops, ViewOf(chatId).ops, addFails, ok);
        SourcedStep(first, before, callSources[chatId], [p], p);
      }
    }

    method AddDevice(chatId: int, p: Participant, d: Device, addFails: Op -> bool) returns (ok: bool)
      requires chatId in callSources && RemovalsMatch(ViewOf(chatId).ops) && RecordedAreAdded(ViewOf(chatId))
      modifies this`callSources, this`ops
      ensures chatId in callSources && RemovalsMatch(ViewOf(chatId).ops) && RecordedAreAdded(ViewOf(chatId))
      ensures Extends(old(callSources[chatId]), callSources[chatId])
      ensures Sourced(old(callSources[chatId]), callSources[chatId], [p])
      ensures CoveredOn(callSources[chatId], p, d)
      ensures StopsAtFailure(old(ViewOf(chatId).ops), ViewOf(chatId).ops, addFails, ok)
      ensures forall c | c != chatId :: ViewOf(c) == old(ViewOf(c))
    {
      ghost var v := ViewOf(chatId);
      AddSourceStepKeeps(v, d, p.id, p.On(d));
      ok := AddSource(chatId, d, p.id, p.On(d), addFails);
      SourcedByStep(v, d, p);
    }

    /** One device: AddSourceStep, unless the call to the binding fails after it. */
    method AddSource(chatId: int, d: Device, id: int, now: Option<string>, addFails: Op -> bool) returns (ok: bool)
      requires chatId in callSources
      modifies this`callSources, this`ops
      ensures chatId in callSources && ViewOf(chatId) == AddSourceStep(old(ViewOf(chatId)), d, id, now)
      ensures StopsAtFailure(old(ViewOf(chatId).ops), ViewOf(chatId).ops, addFails, ok)
      ensures forall c | c != chatId :: ViewOf(c) == old(ViewOf(c))
    {
      ok := true;
      if now.Some? && callSources[chatId].At(d, id) == "" {
        var o := Add(d, id, now.value);
        callSources := callSources[chatId := callSources[chatId].Put(d, id, now.value)];
        Record(chatId, o);
        ok := !addFails(o);
      }
    }
  }

  /** The binding was called until a call failed, and `ok` says that none did. */
  ghost predicate StopsAtFailure(before: seq<Op>, after: seq<Op>, addFails: Op -> bool, ok: bool) {
    && before <= after && (forall i | |before| <= i < |after| - 1 :: !addFails(after[i]))
    && (ok <==> |after| == |before| || !addFails(after[|after| - 1]))
  }

  lemma GoesOn(first: seq<Op>, before: seq<Op>, after: seq<Op>, addFails: Op -> bool, ok: bool)
    requires StopsAtFailure(first, before, addFails, true) && StopsAtFailure(before, after, addFails, ok)
    ensures StopsAtFailure(first, after, addFails, ok)
  {
  }

  /** What updateSources does for one device: a video gets a source unless there is one. */
  function AddSourceStep(v: View, d: Device, id: int, now: Option<string>): View
    requires v.sources.Some?
  {
    if now.Some? && v.sources.value.At(d, id) == ""
    then v.(sources := Some(v.sources.value.Put(d, id, now.value)), ops := v.ops + [Add(d, id, now.value)])
    else v
  }

  lemma AddSourceStepKeeps(v: View, d: Device, id: int, now: Option<string>)
    requires v.sources.Some? && RemovalsMatch(v.ops) && RecordedAreAdded(v)
    ensures var r := AddSourceStep(v, d, id, now);
            && RemovalsMatch(r.ops) && RecordedAreAdded(r) && Extends(v.sources.value, r.sources.value)
            && (now.Some? && now.value != "" ==> r.sources.value.At(d, id) != "")
            && forall e: Device, i: int :: r.sources.value.At(e, i) != v.sources.value.At(e, i) ==>
                 e == d && i == id && now == Some(r.sources.value.At(e, i))
  {
    if now.Some? {
      OpsSnoc(v.ops, Add(d, id, now.value));
    }
  }

  /** Recorded sources are kept. */
  ghost predicate Extends(s: Sources, r: Sources) {
    && (forall id :: s.At(Camera, id) != "" ==> r.At(Camera, id) == s.At(Camera, id))
    && (forall id :: s.At(Screen, id) != "" ==> r.At(Screen, id) == s.At(Screen, id))
  }

  const NO_SOURCES := Sources(map[], map[])

  /** Every source of `r` is one of `s` or a video of one of `ps`. */
  ghost predicate Sourced(s: Sources, r: Sources, ps: seq<Participant>) {
    forall d: Device, id: int :: r.At(d, id) != "" ==> s.At(d, id) == r.At(d, id) || Shown(ps, d, id, r.At(d, id))
  }

  lemma SourcedStep(first: Sources, s: Sources, r: Sources, ps: seq<Participant>, p: Participant)
    requires Sourced(first, s, ps) && Sourced(s, r, [p]) && p in ps
    ensures Sourced(first, r, ps)
  {
    forall d: Device, id: int | r.At(d, id) != ""
      ensures first.At(d, id) == r.At(d, id) || Shown(ps, d, id, r.At(d, id))
    {
      if s.At(d, id) != r.At(d, id) {
        assert Shown([p], d, id, r.At(d, id));
      }
    }
  }

  /** The first n participants have their sources, and nothing else has been recorded. */
  ghost predicate SourcedSoFar(first: Sources, s: Sources, ps: seq<Participant>, n: nat)
    requires n <= |ps|
  {
    Extends(first, s) && Sourced(first, s, ps) && forall j | 0 <= j < n :: Covered(s, ps[j])
  }

  lemma SourcedFurther(first: Sources, s: Sources, r: Sources, ps: seq<Participant>, n: nat)
    requires n < |ps| && SourcedSoFar(first, s, ps, n) && Extends(s, r) && Sourced(s, r, [ps[n]])
    ensures SourcedSoFar(first, r, ps, n)
    ensures Covered(r, ps[n]) ==> SourcedSoFar(first, r, ps, n + 1)
  {
    SourcedStep(first, s, r, ps, ps[n]);
  }

  ghost predicate Shown(ps: seq<Participant>, d: Device, id: int, endpoint: string) {
    exists p :: p in ps && p.id == id && p.On(d) == Some(endpoint)
  }

  lemma SourcedByStep(v: View, d: Device, p: Participant)
    requires v.sources.Some? && RemovalsMatch(v.ops) && RecordedAreAdded(v)
    ensures Sourced(v.sources.value, AddSourceStep(v, d, p.id, p.On(d)).sources.value, [p])
  {
    AddSourceStepKeeps(v, d, p.id, p.On(d));
    assert p in [p];
  }

  /** Every named video of `p` has a source. */
  ghost predicate Covered(s: Sources, p: Participant) {
    CoveredOn(s, p, Camera) && CoveredOn(s, p, Screen)
  }

  ghost predicate CoveredOn(s: Sources, p: Participant, d: Device) {
    p.On(d).Some? && p.On(d) != Some("") ==> s.At(d, p.id) != ""
  }
}

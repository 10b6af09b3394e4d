/** The call bookkeeping of `av.cpp` as a value: two maps, a state and two pending
    flags per call. Calls never end in the source (`callstate_OnEnd` and its like only
    assert), so the maps only grow. */
module Calls {
  import opened Wrappers

  datatype CallState = RINGING | SENDING_NONE | SENDING_A | SENDING_V | SENDING_AV | PAUSED | END | ERROR

  /** `call_type`: 0 in zeroed settings, or one of toxav's two. */
  datatype CallType = NoType | TypeAudio | TypeVideo

  datatype Settings = Settings(
    callType: CallType, audioBitrate: nat, audioFrameDuration: nat, audioSampleRate: nat, audioChannels: nat,
    videoBitrate: nat, maxVideoWidth: nat, maxVideoHeight: nat)

  const ZEROED := Settings(NoType, 0, 0, 0, 0, 0, 0, 0)

  datatype Call = Call(index: int, settings: Settings, state: CallState, audioPending: bool, videoPending: bool)

  function NewCall(index: int): Call {
    Call(index, ZEROED, END, false, false)
  }

  datatype Maps = Maps(callToFriend: map<int, nat>, friendToCall: map<nat, Call>)

  datatype Event =
    | Called(friend: nat, audio: bool, video: bool)
    | StateChanged(friend: nat, state: CallState)
    | RequestAudio(friend: nat)
    | RequestVideo(friend: nat)

  /** None when an assertion of the source fails. */
  type Outcome = Option<(Maps, seq<Event>)>

  // ----- callbacks of toxav -----

  /** `callstate_OnInvite`: `insert` keeps the call a friend already has. */
  function OnInvite(m: Maps, index: int, peer: nat): Outcome {
    if index in m.callToFriend then None
    else
      var calls := if peer in m.friendToCall then m.friendToCall else m.friendToCall[peer := NewCall(index)];
      var t := calls[peer].settings.callType;
      Some((Maps(m.callToFriend[index := peer], calls), [Called(peer, t != NoType, t == TypeVideo)]))
  }

  predicate Known(m: Maps, index: int) {
    index in m.callToFriend && m.callToFriend[index] in m.friendToCall
  }

  function SetState(m: Maps, index: int, state: CallState): (Maps, seq<Event>)
    requires Known(m, index)
  {
    var friend := m.callToFriend[index];
    (m.(friendToCall := m.friendToCall[friend := m.friendToCall[friend].(state := state)]),
     [StateChanged(friend, state)])
  }

  function OnRinging(m: Maps, index: int): Outcome {
    if !Known(m, index) then None else Some(SetState(m, index, RINGING))
  }

  function StartState(t: CallType): CallState {
    match t case NoType => SENDING_NONE case TypeAudio => SENDING_A case TypeVideo => SENDING_AV
  }

  function OnStart(m: Maps, index: int): Outcome {
    if !Known(m, index) then None
    else
      var call := m.friendToCall[m.callToFriend[index]];
      var state := StartState(call.settings.callType);
      if call.state == state then None else Some(SetState(m, index, state))
  }

  // ----- API calls -----

  function MakeSettings(defaults: Settings, audioBitRate: nat, videoBitRate: nat): (s: Settings)
    ensures s.callType == if videoBitRate > 0 then TypeVideo
                          else if audioBitRate > 0 then TypeAudio else defaults.callType
    ensures audioBitRate > 0 ==> s.audioBitrate == 1000 * audioBitRate
    ensures audioBitRate > 0 ==> s.audioFrameDuration == 60 && s.audioSampleRate == 8000 && s.audioChannels == 1
    ensures videoBitRate > 0 ==> s.videoBitrate == videoBitRate && s.maxVideoWidth == 640 && s.maxVideoHeight == 480
    ensures audioBitRate == 0 ==>
              && s.audioBitrate == defaults.audioBitrate && s.audioFrameDuration == defaults.audioFrameDuration
              && s.audioSampleRate == defaults.audioSampleRate && s.audioChannels == defaults.audioChannels
    ensures videoBitRate == 0 ==>
              && s.videoBitrate == defaults.videoBitrate && s.maxVideoWidth == defaults.maxVideoWidth
              && s.maxVideoHeight == defaults.maxVideoHeight
  {
    var s := if audioBitRate == 0 then defaults else defaults.(
      callType := TypeAudio, audioBitrate := audioBitRate * 1000,
      audioFrameDuration := 60, audioSampleRate := 8000, audioChannels := 1);
    if videoBitRate == 0 then s else s.(
      callType := TypeVideo, videoBitrate := videoBitRate, maxVideoWidth := 640, maxVideoHeight := 480)
  }

  /** `new_toxav_call`, with the index toxav gives the call. */
  function PlaceCall(m: Maps, friend: nat, settings: Settings, index: int): Outcome {
    if friend in m.friendToCall then None
    else
      var call := NewCall(index).(settings := settings);
      Some((Maps(m.callToFriend[index := friend], m.friendToCall[friend := call]), []))
  }

  /** `new_toxav_answer`; to a friend who is not calling it does nothing. */
  function Answer(m: Maps, friend: nat, settings: Settings): Maps {
    if friend !in m.friendToCall then m
    else m.(friendToCall := m.friendToCall[friend := m.friendToCall[friend].(settings := settings)])
  }

  function SendAudioFrame(m: Maps, friend: nat, sampleCount: nat, channels: nat, samplingRate: nat): Outcome {
    if friend !in m.friendToCall then None
    else
      var s := m.friendToCall[friend].settings;
      if sampleCount != samplingRate * channels * s.audioFrameDuration / 1000
         || channels != s.audioChannels || samplingRate != s.audioSampleRate then None
      else Some((m.(friendToCall := m.friendToCall[friend := m.friendToCall[friend].(audioPending := false)]), []))
  }

  // ----- iteration -----

  /** The three cases of the switch fall through into each other. */
  predicate VideoDue(c: Call) {
    (c.state == SENDING_V || c.state == SENDING_AV) && !c.videoPending
  }

  predicate AudioDue(c: Call) {
    && !c.audioPending
    && (c.state == SENDING_A || c.state == SENDING_AV || (c.state == SENDING_V && !VideoDue(c)))
  }

  function Asked(c: Call): Call {
    c.(audioPending := c.audioPending || AudioDue(c), videoPending := c.videoPending || VideoDue(c))
  }

  function AskEvents(friend: nat, c: Call): seq<Event> {
    (if VideoDue(c) then [RequestVideo(friend)] else []) + if AudioDue(c) then [RequestAudio(friend)] else []
  }

  function Iterate(m: Maps): Maps {
    m.(friendToCall := map f | f in m.friendToCall :: Asked(m.friendToCall[f]))
  }

  /** The events of an iteration that visits the calls of these friends in turn. */
  function VisitEvents(calls: map<nat, Call>, friends: seq<nat>): seq<Event>
    requires forall i :: 0 <= i < |friends| ==> friends[i] in calls
  {
    if friends == [] then []
    else
      var n := |friends| - 1;
      VisitEvents(calls, friends[..n]) + AskEvents(friends[n], calls[friends[n]])
  }

  function Requests(events: seq<Event>, e: Event): nat {
    if events == [] then 0 else Requests(events[..|events| - 1], e) + if events[|events| - 1] == e then 1 else 0
  }

  lemma {:induction false} RequestsConcat(a: seq<Event>, b: seq<Event>, e: Event)
    ensures Requests(a + b, e) == Requests(a, e) + Requests(b, e)
  {
    if b == [] {
      assert a + b == a;
    } else {
      RequestsConcat(a, b[..|b| - 1], e);
      assert (a + b)[..|a + b| - 1] == a + b[..|b| - 1];
    }
  }

  lemma {:induction false} AskOnce(friend: nat, c: Call, f: nat)
    ensures Requests(AskEvents(friend, c), RequestAudio(f)) == if f == friend && AudioDue(c) then 1 else 0
    ensures Requests(AskEvents(friend, c), RequestVideo(f)) == if f == friend && VideoDue(c) then 1 else 0
  {
    var v: seq<Event> := if VideoDue(c) then [RequestVideo(friend)] else [];
    var a: seq<Event> := if AudioDue(c) then [RequestAudio(friend)] else [];
    RequestsConcat(v, a, RequestAudio(f));
    RequestsConcat(v, a, RequestVideo(f));
    assert v[..0] == [] && a[..0] == [];
  }

  lemma {:induction false} AskCount(events: seq<Event>, friend: nat, c: Call, f: nat)
    ensures var after := events + AskEvents(friend, c);
            && Requests(after, RequestAudio(f)) ==
               Requests(events, RequestAudio(f)) + (if f == friend && AudioDue(c) then 1 else 0)
            && Requests(after, RequestVideo(f)) ==
               Requests(events, RequestVideo(f)) + if f == friend && VideoDue(c) then 1 else 0
  {
    AskOnce(friend, c, f);
    RequestsConcat(events, AskEvents(friend, c), RequestAudio(f));
    RequestsConcat(events, AskEvents(friend, c), RequestVideo(f));
  }

  /** The requests of three iterations that come one after the other, for a call that has
      none pending: only in SENDING_V would they take turns. */
  lemma {:induction false} ThreeRounds(friend: nat, c: Call)
    requires !c.audioPending && !c.videoPending
    ensures var (v, a) := (RequestVideo(friend), RequestAudio(friend));
            && AskEvents(friend, c) == (match c.state case SENDING_A => [a] case SENDING_AV => [v, a]
                                                      case SENDING_V => [v] case _ => [])
            && AskEvents(friend, Asked(c)) == (if c.state == SENDING_V then [a] else [])
            && AskEvents(friend, Asked(Asked(c))) == []
  {
    assert [RequestVideo(friend)] + [RequestAudio(friend)] == [RequestVideo(friend), RequestAudio(friend)];
  }

  /** Requests go out friend by friend, video before audio. */
  predicate AsksBefore(d: Event, e: Event) {
    d.friend < e.friend || (d.friend == e.friend && d.RequestVideo? && e.RequestAudio?)
  }

  ghost predicate AskInOrder(events: seq<Event>) {
    forall i, j :: 0 <= i < j < |events| ==> AsksBefore(events[i], events[j])
  }

  ghost predicate AskOnly(events: seq<Event>, friends: seq<nat>) {
    forall i :: 0 <= i < |events| ==> events[i].friend in friends
  }

  lemma {:induction false} VisitInOrder(calls: map<nat, Call>, friends: seq<nat>)
    requires forall i :: 0 <= i < |friends| ==> friends[i] in calls
    requires forall i, j :: 0 <= i < j < |friends| ==> friends[i] < friends[j]
    ensures AskOnly(VisitEvents(calls, friends), friends) && AskInOrder(VisitEvents(calls, friends))
  {
    if friends != [] {
      var before, last := friends[..|friends| - 1], friends[|friends| - 1];
      VisitInOrder(calls, before);
      assert friends == before + [last];
      AskNext(VisitEvents(calls, before), before, last, calls[last]);
    }
  }

  lemma {:induction false} AskNext(early: seq<Event>, before: seq<nat>, last: nat, c: Call)
    requires AskOnly(early, before) && AskInOrder(early) && forall f :: f in before ==> f < last
    ensures AskOnly(early + AskEvents(last, c), before + [last]) && AskInOrder(early + AskEvents(last, c))
  {
  }

  /** An iteration asks for each frame that is due, exactly once, and for no other. */
  lemma {:induction false} VisitAsksOnce(calls: map<nat, Call>, friends: seq<nat>, f: nat)
    requires forall i :: 0 <= i < |friends| ==> friends[i] in calls
    requires forall i, j :: 0 <= i < j < |friends| ==> friends[i] < friends[j]
    ensures Requests(VisitEvents(calls, friends), RequestAudio(f)) ==
            if f in friends && AudioDue(calls[f]) then 1 else 0
    ensures Requests(VisitEvents(calls, friends), RequestVideo(f)) ==
            if f in friends && VideoDue(calls[f]) then 1 else 0
  {
    if friends != [] {
      var before, last := friends[..|friends| - 1], friends[|friends| - 1];
      assert friends == before + [last] && last !in before;
      VisitAsksOnce(calls, before, f);
      AskCount(VisitEvents(calls, before), last, calls[last], f);
      if f == last {
        assert f in friends && f !in before;
      } else {
        assert f in friends <==> f in before;
      }
    }
  }
}

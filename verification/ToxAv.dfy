/** `new_ToxAV` in its own form: the two maps as fields, updated step by step, and the
    events its callbacks raise. */
module ToxAv {
  import opened Wrappers
  import opened Calls

  class NewToxAv {
    const defaults: Settings  // av_DefaultSettings
    var callToFriend: map<int, nat>
    var friendToCall: map<nat, Call>
    var events: seq<Event>

    constructor (defaults: Settings)
      ensures this.defaults == defaults && callToFriend == map[] && friendToCall == map[] && events == []
    {
      this.defaults := defaults;
      callToFriend, friendToCall, events := map[], map[], [];
    }

    function View(): Maps
      reads this
    {
      Maps(callToFriend, friendToCall)
    }

    /** The state after a callback or call whose assertions hold. */
    twostate predicate Becomes(r: Outcome)
      reads this
    {
      r.Some? && View() == r.value.0 && events == old(events) + r.value.1
    }

    /** Nothing has changed but the call of this friend, and that only as said. */
    twostate predicate OnlyCallBecomes(friend: nat, call: Call)
      reads this
    {
      && callToFriend == old(callToFriend)
      && friend in friendToCall && friendToCall[friend] == call
      && forall f :: f != friend ==>
           && (f in friendToCall <==> f in old(friendToCall))
           && (f in friendToCall ==> friendToCall[f] == old(friendToCall)[f])
    }

    method Raise(e: Event)
      modifies this`events
      ensures events == old(events) + [e]
    {
      events := events + [e];
    }

    method OnInvite(index: int, peer: nat)
      requires Calls.OnInvite(View(), index, peer).Some?
      modifies this
      ensures Becomes(Calls.OnInvite(old(View()), index, peer))
      ensures index in callToFriend && callToFriend[index] == peer
      ensures forall i :: i in old(callToFriend) ==> i in callToFriend && callToFriend[i] == old(callToFriend)[i]
      ensures peer in old(friendToCall) ==> friendToCall == old(friendToCall)
      ensures peer !in old(friendToCall) ==>
                && peer in friendToCall && friendToCall[peer].index == index
                && |events| > 0 && events[|events| - 1] == Called(peer, false, false)
    {
      assert index !in callToFriend;
      callToFriend := callToFriend[index := peer];
      if peer !in friendToCall {
        friendToCall := friendToCall[peer := NewCall(index)];
      }
      var call := friendToCall[peer];
      var audioEnabled, videoEnabled;
      match call.settings.callType {
        case NoType => audioEnabled, videoEnabled := false, false;
        case TypeAudio => audioEnabled, videoEnabled := true, false;
        case TypeVideo => audioEnabled, videoEnabled := true, true;
      }
      Raise(Called(peer, audioEnabled, videoEnabled));
    }

    method OnRinging(index: int)
      requires Calls.OnRinging(View(), index).Some?
      modifies this
      ensures Becomes(Calls.OnRinging(old(View()), index))
      ensures var f := old(callToFriend[index]);
              OnlyCallBecomes(f, old(friendToCall)[f].(state := RINGING))
    {
      assert index in callToFriend;
      var friend := callToFriend[index];
      assert friend in friendToCall;
      friendToCall := friendToCall[friend := friendToCall[friend].(state := RINGING)];
      Raise(StateChanged(friend, RINGING));
    }

    method OnStart(index: int)
      requires Calls.OnStart(View(), index).Some?
      modifies this
      ensures Becomes(Calls.OnStart(old(View()), index))
      ensures var f := old(callToFriend[index]);
              && OnlyCallBecomes(f, old(friendToCall)[f].(state := friendToCall[f].state))
              && (friendToCall[f].state == SENDING_AV <==> friendToCall[f].settings.callType == TypeVideo)
              && (friendToCall[f].state == SENDING_A <==> friendToCall[f].settings.callType == TypeAudio)
              && friendToCall[f].state != SENDING_V && friendToCall[f].state != old(friendToCall)[f].state
    {
      assert index in callToFriend;
      var friend := callToFriend[index];
      assert friend in friendToCall;
      var call := friendToCall[friend];
      var state;
      match call.settings.callType {
        case NoType => state := SENDING_NONE;
        case TypeAudio => state := SENDING_A;
        case TypeVideo => state := SENDING_AV;
      }
      assert call.state != state;
      friendToCall := friendToCall[friend := call.(state := state)];
      Raise(StateChanged(friend, state));
    }

    method MakeSettings(audioBitRate: nat, videoBitRate: nat) returns (settings: Settings)
      ensures settings == Calls.MakeSettings(defaults, audioBitRate, videoBitRate)
      ensures settings.callType == if videoBitRate != 0 then TypeVideo
                                   else if audioBitRate != 0 then TypeAudio else defaults.callType
    {
      settings := defaults;
      if audioBitRate != 0 {
        settings := settings.(callType := TypeAudio, audioBitrate := audioBitRate * 1000);
        settings := settings.(audioFrameDuration := 60, audioSampleRate := 8000, audioChannels := 1);
      }
      if videoBitRate != 0 {
        settings := settings.(callType := TypeVideo, videoBitrate := videoBitRate);
        settings := settings.(maxVideoWidth := 640, maxVideoHeight := 480);
      }
    }

    method PlaceCall(friend: nat, audioBitRate: nat, videoBitRate: nat, index: int)
      requires friend !in friendToCall
      modifies this
      ensures Becomes(Calls.PlaceCall(old(View()), friend, Calls.MakeSettings(defaults, audioBitRate, videoBitRate),
                                      index))
      ensures index in callToFriend && callToFriend[index] == friend
      ensures friend in friendToCall && friendToCall[friend].index == index && friendToCall[friend].state == END
      ensures forall f :: f in old(friendToCall) ==> f in friendToCall && friendToCall[f] == old(friendToCall)[f]
    {
      var settings := MakeSettings(audioBitRate, videoBitRate);
      var call := NewCall(index);
      call := call.(settings := settings);
      callToFriend := callToFriend[index := friend];
      friendToCall := friendToCall[friend := call];
    }

    method Answer(friend: nat, audioBitRate: nat, videoBitRate: nat) returns (ok: bool)
      modifies this
      ensures ok == (friend in old(friendToCall)) && events == old(events)
      ensures View() == Calls.Answer(old(View()), friend, Calls.MakeSettings(defaults, audioBitRate, videoBitRate))
      ensures ok ==> OnlyCallBecomes(friend, old(friendToCall)[friend].(settings := friendToCall[friend].settings))
      ensures !ok ==> callToFriend == old(callToFriend) && friendToCall == old(friendToCall)
    {
      if friend !in friendToCall {
        return false;
      }
      var settings := MakeSettings(audioBitRate, videoBitRate);
      friendToCall := friendToCall[friend := friendToCall[friend].(settings := settings)];
      ok := true;
    }

    method SendAudioFrame(friend: nat, sampleCount: nat, channels: nat, samplingRate: nat)
      requires Calls.SendAudioFrame(View(), friend, sampleCount, channels, samplingRate).Some?
      modifies this
      ensures Becomes(Calls.SendAudioFrame(old(View()), friend, sampleCount, channels, samplingRate))
      ensures OnlyCallBecomes(friend, old(friendToCall)[friend].(audioPending := false)) && events == old(events)
    {
      assert friend in friendToCall;
      var call := friendToCall[friend];
      assert sampleCount == samplingRate * channels * call.settings.audioFrameDuration / 1000;
      assert channels == call.settings.audioChannels && samplingRate == call.settings.audioSampleRate;
      friendToCall := friendToCall[friend := call.(audioPending := false)];
    }

    /** One round of the loop: the switch with its fall-through. */
    method AskFor(friend: nat)
      requires friend in friendToCall
      modifies this
      ensures callToFriend == old(callToFriend)
      ensures friendToCall == old(friendToCall)[friend := Asked(old(friendToCall[friend]))]
      ensures events == old(events) + AskEvents(friend, old(friendToCall[friend]))
    {
      var call := friendToCall[friend];
      var falls := call.state == SENDING_A;
      if call.state == SENDING_V || call.state == SENDING_AV {
        falls := true;
        if !call.videoPending {
          Raise(RequestVideo(friend));
          call := call.(videoPending := true);
          if call.state == SENDING_V {
            falls := false;
          }
        }
      }
      if falls && !call.audioPending {
        Raise(RequestAudio(friend));
        call := call.(audioPending := true);
      }
      friendToCall := friendToCall[friend := call];
    }

    /** Frames are asked for in the order of the friend numbers. */
    method Iteration() returns (ghost order: seq<nat>)
      modifies this
      ensures forall i, j :: 0 <= i < j < |order| ==> order[i] < order[j]
      ensures forall f :: f in order <==> f in old(friendToCall)
      ensures View() == Iterate(old(View()))
      ensures events == old(events) + VisitEvents(old(friendToCall), order)
      ensures forall i, j :: |old(events)| <= i < j < |events| ==> AsksBefore(events[i], events[j])
    {
      ghost var before := friendToCall;
      var rest := friendToCall.Keys;
      order := [];
      PartlyAll(before);
      while rest != {}
        invariant Visiting(before, order, rest, friendToCall, old(events), events)
        invariant callToFriend == old(callToFriend)
        decreases rest
      {
        LeastExists(rest);
        var friend :| Least(friend, rest);
        ghost var calls, raised := friendToCall, events;
        AskFor(friend);
        VisitingNext(before, order, rest, calls, old(events), raised, friend);
        order := order + [friend];
        rest := rest - {friend};
      }
      VisitInOrder(before, order);
    }
  }

  predicate Least(f: nat, rest: set<nat>) {
    f in rest && forall g :: g in rest ==> f <= g
  }

  lemma {:induction false} LeastExists(rest: set<nat>)
    requires rest != {}
    ensures exists f :: Least(f, rest)
  {
    var f :| f in rest;
    if rest == {f} {
      assert Least(f, rest);
    } else {
      LeastExists(rest - {f});
      var g :| Least(g, rest - {f});
      assert forall h :: h in rest ==> h == f || h in rest - {f};
      assert Least(if f < g then f else g, rest);
    }
  }

  /** The calls when those of `rest` are still to be visited. */
  ghost function Partly(calls: map<nat, Call>, rest: set<nat>): map<nat, Call> {
    map f | f in calls :: if f in rest then calls[f] else Asked(calls[f])
  }

  lemma {:induction false} PartlyNext(calls: map<nat, Call>, rest: set<nat>, friend: nat)
    requires friend in rest && rest <= calls.Keys
    ensures friend in Partly(calls, rest) && Partly(calls, rest)[friend] == calls[friend]
    ensures Partly(calls, rest - {friend}) == Partly(calls, rest)[friend := Asked(calls[friend])]
  {
  }

  lemma {:induction false} PartlyAll(calls: map<nat, Call>)
    ensures Partly(calls, calls.Keys) == calls
    ensures Partly(calls, {}) == map f | f in calls :: Asked(calls[f])
  {
  }

  ghost predicate Visited(calls: map<nat, Call>, order: seq<nat>, rest: set<nat>) {
    && rest <= calls.Keys
    && (forall i, j :: 0 <= i < j < |order| ==> order[i] < order[j])
    && (forall i :: 0 <= i < |order| ==> order[i] in calls)
    && (forall f :: f in calls ==> (f in rest <==> f !in order))
    && (forall i, f :: 0 <= i < |order| && f in rest ==> order[i] < f)
  }

  lemma {:induction false} VisitedNext(calls: map<nat, Call>, order: seq<nat>, rest: set<nat>, friend: nat)
    requires Visited(calls, order, rest) && Least(friend, rest)
    ensures Visited(calls, order + [friend], rest - {friend})
    ensures VisitEvents(calls, order + [friend]) == VisitEvents(calls, order) + AskEvents(friend, calls[friend])
  {
    assert forall f :: f in order + [friend] <==> f in order || f == friend;
    assert (order + [friend])[..|order|] == order;
  }

  ghost predicate Visiting(before: map<nat, Call>, order: seq<nat>, rest: set<nat>, calls: map<nat, Call>,
                           first: seq<Event>, events: seq<Event>) {
    && Visited(before, order, rest)
    && calls == Partly(before, rest)
    && events == first + VisitEvents(before, order)
  }

  lemma {:induction false} VisitingNext(before: map<nat, Call>, order: seq<nat>, rest: set<nat>, calls: map<nat, Call>,
                     first: seq<Event>, events: seq<Event>, friend: nat)
    requires Visiting(before, order, rest, calls, first, events) && Least(friend, rest)
    ensures friend in calls
    ensures Visiting(before, order + [friend], rest - {friend}, calls[friend := Asked(calls[friend])],
                     first, events + AskEvents(friend, calls[friend]))
  {
    VisitedNext(before, order, rest, friend);
    PartlyNext(before, rest, friend);
    EventsAssociate(first, VisitEvents(before, order), AskEvents(friend, before[friend]));
  }

  lemma {:induction false} EventsAssociate(a: seq<Event>, b: seq<Event>, c: seq<Event>)
    ensures a + (b + c) == (a + b) + c
  {
  }
}

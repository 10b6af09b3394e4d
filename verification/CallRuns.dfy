/** Whole runs of the call bookkeeping: what holds after any sequence of callbacks and
    API calls in which toxav hands out fresh call indices, reports only on calls it has
    announced, and the client calls a friend once and sends audio only when asked. */
module CallRuns {
  import opened Wrappers
  import opened Calls

  datatype Action =
    | Invited(index: int, peer: nat)
    | Rang(index: int)
    | Started(index: int)
    | Placed(friend: nat, settings: Settings, index: int)
    | Answered(friend: nat, settings: Settings)
    | Iterated(order: seq<nat>)
    | Sent(friend: nat, sampleCount: nat, channels: nat, samplingRate: nat)

  datatype Av = Av(maps: Maps, events: seq<Event>)

  const INITIAL := Av(Maps(map[], map[]), [])

  predicate Allowed(s: Av, a: Action) {
    var m := s.maps;
    match a
    case Invited(index, _) => index !in m.callToFriend
    case Rang(index) => index in m.callToFriend
    case Started(index) => index in m.callToFriend
    case Placed(friend, _, index) => friend !in m.friendToCall && index !in m.callToFriend
    case Answered(_, _) => true
    case Iterated(order) =>
      && (forall i, j :: 0 <= i < j < |order| ==> order[i] < order[j])
      && (forall i :: 0 <= i < |order| ==> order[i] in m.friendToCall)
      && (forall f :: f in m.friendToCall ==> f in order)
    case Sent(friend, _, _, _) => friend in m.friendToCall && m.friendToCall[friend].audioPending
  }

  function Outcome(s: Av, a: Action): (r: Option<(Maps, seq<Event>)>)
    requires Allowed(s, a)
  {
    var m := s.maps;
    match a
    case Invited(index, peer) => OnInvite(m, index, peer)
    case Rang(index) => OnRinging(m, index)
    case Started(index) => OnStart(m, index)
    case Placed(friend, settings, index) => PlaceCall(m, friend, settings, index)
    case Answered(friend, settings) => Some((Answer(m, friend, settings), []))
    case Iterated(order) => Some((Iterate(m), VisitEvents(m.friendToCall, order)))
    case Sent(friend, count, channels, rate) => SendAudioFrame(m, friend, count, channels, rate)
  }

  /** None when an assertion fails. */
  function Apply(s: Av, a: Action): Option<Av>
    requires Allowed(s, a)
  {
    var r := Outcome(s, a);
    if r.None? then None else Some(Av(r.value.0, s.events + r.value.1))
  }

  /** Every action was allowed when it came, and none before the last failed. */
  ghost predicate Legal(run: seq<Action>)
    decreases |run|, 0
  {
    run == [] ||
    var before := run[..|run| - 1];
    Legal(before) && After(before).Some? && Allowed(After(before).value, run[|run| - 1])
  }

  ghost function After(run: seq<Action>): Option<Av>
    requires Legal(run)
    decreases |run|, 1
  {
    if run == [] then Some(INITIAL) else Apply(After(run[..|run| - 1]).value, run[|run| - 1])
  }

  ghost predicate Reaches(run: seq<Action>, s: Av) {
    Legal(run) && After(run) == Some(s)
  }

  /** Splits a run into its last action and what came before. */
  lemma {:induction false} LastStep(run: seq<Action>, s: Av) returns (before: seq<Action>, was: Av, a: Action)
    requires Reaches(run, s) && run != []
    ensures run == before + [a] && |before| == |run| - 1 && before == run[..|run| - 1]
    ensures Reaches(before, was) && Allowed(was, a) && Apply(was, a) == Some(s)
  {
    before, a := run[..|run| - 1], run[|run| - 1];
    was := After(before).value;
  }

  // ----- the two maps -----

  ghost predicate Agree(m: Maps) {
    && (forall f :: f in m.friendToCall ==>
          m.friendToCall[f].index in m.callToFriend && m.callToFriend[m.friendToCall[f].index] == f)
    && (forall i :: i in m.callToFriend ==> m.callToFriend[i] in m.friendToCall)
  }

  lemma {:induction false} AgreeKept(s: Av, a: Action)
    requires Allowed(s, a) && Apply(s, a).Some? && Agree(s.maps)
    ensures Agree(Apply(s, a).value.maps)
  {
  }

  lemma {:induction false} MapsAgree(run: seq<Action>, s: Av)
    requires Reaches(run, s)
    ensures Agree(s.maps)
  {
    if run != [] {
      var before, was, a := LastStep(run, s);
      MapsAgree(before, was);
      AgreeKept(was, a);
    }
  }

  /** The last state reported to the client for this friend's call. */
  function LastReport(events: seq<Event>, friend: nat): CallState {
    if events == [] then END
    else
      var e := events[|events| - 1];
      if e.StateChanged? && e.friend == friend then e.state else LastReport(events[..|events| - 1], friend)
  }

  /** No assertion fails, but for a start of a call that is already reported as started
      in the way its last settings say, and a frame whose shape does not match them. */
  lemma {:induction false} AssertionsFailOnly(run: seq<Action>, s: Av, a: Action)
    requires Reaches(run, s) && Allowed(s, a)
    ensures var m := s.maps;
            Apply(s, a).None? <==>
              || (a.Started? && Known(m, a.index) && var f := m.callToFriend[a.index];
                  LastReport(s.events, f) == StartState(LastSettings(run, f).callType))
              || (a.Sent? && var c := LastSettings(run, a.friend);
                  || a.channels != c.audioChannels || a.samplingRate != c.audioSampleRate
                  || a.sampleCount != c.audioSampleRate * c.audioChannels * c.audioFrameDuration / 1000)
  {
    MapsAgree(run, s);
    if a.Started? {
      StateIsLastReported(run, s, s.maps.callToFriend[a.index]);
      SettingsAreLast(run, s, s.maps.callToFriend[a.index]);
    } else if a.Sent? {
      SettingsAreLast(run, s, a.friend);
    }
  }

  /** It does happen: a call that is started a second time. */
  lemma {:induction false} SecondStartAborts() returns (run: seq<Action>, s: Av)
    ensures run == [Invited(0, 7), Started(0)] && Reaches(run, s)
    ensures Allowed(s, Started(0)) && Apply(s, Started(0)) == None
  {
    var one := Apply(INITIAL, Invited(0, 7)).value;
    s := Apply(one, Started(0)).value;
    TwoSteps(Invited(0, 7), Started(0), one, s);
    run := [Invited(0, 7)] + [Started(0)];
  }

  // ----- states -----

  lemma {:induction false} LastReportConcat(a: seq<Event>, b: seq<Event>, friend: nat)
    requires forall i :: 0 <= i < |b| ==> !b[i].StateChanged?
    ensures LastReport(a + b, friend) == LastReport(a, friend)
  {
    if b == [] {
      assert a + b == a;
    } else {
      LastReportConcat(a, b[..|b| - 1], friend);
      assert (a + b)[..|a + b| - 1] == a + b[..|b| - 1];
    }
  }

  lemma {:induction false} VisitReportsNothing(calls: map<nat, Call>, friends: seq<nat>)
    requires forall i :: 0 <= i < |friends| ==> friends[i] in calls
    ensures forall e :: e in VisitEvents(calls, friends) ==> e.RequestAudio? || e.RequestVideo?
    ensures forall i :: 0 <= i < |VisitEvents(calls, friends)| ==> !VisitEvents(calls, friends)[i].StateChanged?
  {
    if friends != [] {
      VisitReportsNothing(calls, friends[..|friends| - 1]);
    }
  }

  lemma {:induction false} ReportKept(s: Av, a: Action, f: nat)
    requires Allowed(s, a) && Apply(s, a).Some?
    requires f in s.maps.friendToCall ==> s.maps.friendToCall[f].state == LastReport(s.events, f)
    requires f !in s.maps.friendToCall ==> LastReport(s.events, f) == END
    ensures var t := Apply(s, a).value;
            LastReport(t.events, f) == if f in t.maps.friendToCall then t.maps.friendToCall[f].state else END
  {
    if a.Iterated? {
      VisitReportsNothing(s.maps.friendToCall, a.order);
      LastReportConcat(s.events, VisitEvents(s.maps.friendToCall, a.order), f);
    } else if a.Rang? || a.Started? {
      var e := Outcome(s, a).value.1;
      assert (s.events + e)[..|s.events|] == s.events;
    } else {
      LastReportConcat(s.events, Outcome(s, a).value.1, f);
    }
  }

  lemma {:induction false} StateIsLastReported(run: seq<Action>, s: Av, f: nat)
    requires Reaches(run, s)
    ensures LastReport(s.events, f) == if f in s.maps.friendToCall then s.maps.friendToCall[f].state else END
  {
    if run != [] {
      var before, was, a := LastStep(run, s);
      StateIsLastReported(before, was, f);
      ReportKept(was, a, f);
    }
  }

  ghost predicate NoVideoOnly(m: Maps) {
    forall f :: f in m.friendToCall ==> m.friendToCall[f].state in {END, RINGING, SENDING_NONE, SENDING_A, SENDING_AV}
  }

  lemma {:induction false} NoVideoOnlyKept(s: Av, a: Action)
    requires Allowed(s, a) && Apply(s, a).Some? && NoVideoOnly(s.maps)
    ensures NoVideoOnly(Apply(s, a).value.maps)
  {
  }

  /** SENDING_V is never reached, so the fall-through switch asks for audio exactly for
      the un-pending calls that send audio, and for video for those that send both. */
  lemma {:induction false} SendingVideoOnlyIsUnreachable(run: seq<Action>, s: Av)
    requires Reaches(run, s)
    ensures NoVideoOnly(s.maps)
    ensures forall f :: f in s.maps.friendToCall ==> var c := s.maps.friendToCall[f];
              && (AudioDue(c) <==> (c.state == SENDING_A || c.state == SENDING_AV) && !c.audioPending)
              && (VideoDue(c) <==> c.state == SENDING_AV && !c.videoPending)
  {
    if run != [] {
      var before, was, a := LastStep(run, s);
      SendingVideoOnlyIsUnreachable(before, was);
      NoVideoOnlyKept(was, a);
    }
  }

  // ----- requests and frames -----

  /** Audio frames sent to a friend. */
  function Frames(run: seq<Action>, friend: nat): nat {
    if run == [] then 0
    else
      var a := run[|run| - 1];
      Frames(run[..|run| - 1], friend) + if a.Sent? && a.friend == friend then 1 else 0
  }

  function Pending(m: Maps, f: nat, video: bool): nat {
    if f !in m.friendToCall then 0
    else if (if video then m.friendToCall[f].videoPending else m.friendToCall[f].audioPending) then 1 else 0
  }

  lemma {:induction false} NoRequests(events: seq<Event>, e: Event)
    requires forall i :: 0 <= i < |events| ==> events[i] != e
    ensures Requests(events, e) == 0
  {
    if events != [] {
      NoRequests(events[..|events| - 1], e);
    }
  }

  /** How one action moves the pending flags. */
  lemma {:induction false} PendingStep(s: Av, a: Action, f: nat)
    requires Allowed(s, a) && Apply(s, a).Some?
    ensures var (m, n) := (s.maps, Apply(s, a).value.maps);
            && Pending(n, f, true) - Pending(m, f, true) ==
               (if a.Iterated? && f in m.friendToCall && VideoDue(m.friendToCall[f]) then 1 else 0)
            && Pending(n, f, false) - Pending(m, f, false) ==
               (if a.Iterated? && f in m.friendToCall && AudioDue(m.friendToCall[f]) then 1 else 0)
               - (if a.Sent? && a.friend == f then 1 else 0)
  {
  }

  /** How many requests to a friend one action raises. */
  lemma {:induction false} RequestsStep(s: Av, a: Action, f: nat)
    requires Allowed(s, a) && Apply(s, a).Some?
    ensures var (m, t) := (s.maps, Apply(s, a).value);
            && Requests(t.events, RequestVideo(f)) - Requests(s.events, RequestVideo(f)) ==
               (if a.Iterated? && f in m.friendToCall && VideoDue(m.friendToCall[f]) then 1 else 0)
            && Requests(t.events, RequestAudio(f)) - Requests(s.events, RequestAudio(f)) ==
               (if a.Iterated? && f in m.friendToCall && AudioDue(m.friendToCall[f]) then 1 else 0)
  {
    var e := Outcome(s, a).value.1;
    RequestsConcat(s.events, e, RequestAudio(f));
    RequestsConcat(s.events, e, RequestVideo(f));
    if a.Iterated? {
      VisitAsksOnce(s.maps.friendToCall, a.order, f);
    } else {
      QuietOutcome(s, a);
      NoRequests(e, RequestAudio(f));
      NoRequests(e, RequestVideo(f));
    }
  }

  lemma {:induction false} QuietOutcome(s: Av, a: Action)
    requires Allowed(s, a) && Apply(s, a).Some? && !a.Iterated?
    ensures forall i :: 0 <= i < |Outcome(s, a).value.1| ==>
              !Outcome(s, a).value.1[i].RequestAudio? && !Outcome(s, a).value.1[i].RequestVideo?
  {
  }

  /** Each request for audio is answered before the next one, and the pending flag says
      whether one is open. Video is asked for at most once, and then never again. */
  lemma {:induction false} RequestsAreConserved(run: seq<Action>, s: Av, f: nat)
    requires Reaches(run, s)
    ensures Requests(s.events, RequestAudio(f)) == Frames(run, f) + Pending(s.maps, f, false)
    ensures Requests(s.events, RequestVideo(f)) == Pending(s.maps, f, true)
  {
    if run != [] {
      var before, was, a := LastStep(run, s);
      RequestsAreConserved(before, was, f);
      RequestsStep(was, a, f);
      PendingStep(was, a, f);
    }
  }

  // ----- when the maps are inverse to each other -----

  ghost predicate Inverse(m: Maps) {
    forall i :: i in m.callToFriend ==>
      m.callToFriend[i] in m.friendToCall && m.friendToCall[m.callToFriend[i]].index == i
  }

  /** The friend called, or was called, in this run. */
  ghost predicate Talked(run: seq<Action>, f: nat) {
    exists k :: 0 <= k < |run| && Opens(run[k], f)
  }

  predicate Opens(a: Action, f: nat) {
    (a.Invited? && a.peer == f) || (a.Placed? && a.friend == f)
  }

  /** Some friend invited us to a second call. */
  ghost predicate InvitedAgain(run: seq<Action>) {
    exists k :: 0 <= k < |run| && SecondInvite(run, k)
  }

  ghost predicate SecondInvite(run: seq<Action>, k: nat)
    requires k < |run|
  {
    run[k].Invited? && Talked(run[..k], run[k].peer)
  }

  lemma {:induction false} TalkedNext(before: seq<Action>, a: Action, f: nat)
    ensures Talked(before + [a], f) <==> Talked(before, f) || Opens(a, f)
  {
    var run := before + [a];
    if Talked(before, f) {
      var k :| 0 <= k < |before| && Opens(before[k], f);
      assert Opens(run[k], f);
    }
    if Opens(a, f) { assert Opens(run[|before|], f); }
  }

  /** The friends with a call are those who called or were called. */
  lemma {:induction false} CallersTalked(run: seq<Action>, s: Av, f: nat)
    requires Reaches(run, s)
    ensures f in s.maps.friendToCall <==> Talked(run, f)
  {
    if run != [] {
      var before, was, a := LastStep(run, s);
      CallersTalked(before, was, f);
      TalkedNext(before, a, f);
    }
  }

  lemma {:induction false} InvitedAgainNext(before: seq<Action>, a: Action)
    ensures InvitedAgain(before + [a]) <==> InvitedAgain(before) || (a.Invited? && Talked(before, a.peer))
  {
    var run := before + [a];
    assert forall k :: 0 <= k < |before| ==> run[..k] == before[..k];
    assert run[..|before|] == before;
    if InvitedAgain(before) {
      var k :| 0 <= k < |before| && SecondInvite(before, k);
      assert SecondInvite(run, k);
    }
    if InvitedAgain(run) {
      var k :| 0 <= k < |run| && SecondInvite(run, k);
      if k < |before| { assert SecondInvite(before, k); }
    }
    if a.Invited? && Talked(before, a.peer) { assert SecondInvite(run, |before|); }
  }

  lemma {:induction false} InverseStep(s: Av, a: Action)
    requires Allowed(s, a) && Apply(s, a).Some? && Agree(s.maps)
    ensures Inverse(Apply(s, a).value.maps) <==>
            Inverse(s.maps) && !(a.Invited? && a.peer in s.maps.friendToCall)
  {
    var m, n := s.maps, Apply(s, a).value.maps;
    if a.Invited? && a.peer in m.friendToCall {
      assert n.callToFriend[a.index] == a.peer && n.friendToCall[a.peer].index != a.index;
    } else if Inverse(n) {
      forall i | i in m.callToFriend
        ensures m.friendToCall[m.callToFriend[i]].index == i
      {
        assert n.callToFriend[i] == m.callToFriend[i];
      }
    }
  }

  /** Each index leads to a call with that very index if and only if no friend who had a
      call invited us again: the second invitation leaves the first call in place, and
      from then on the maps are never inverse again. */
  lemma {:induction false} MapsInverse(run: seq<Action>, s: Av)
    requires Reaches(run, s)
    ensures Inverse(s.maps) <==> !InvitedAgain(run)
  {
    if run != [] {
      var before, was, a := LastStep(run, s);
      MapsInverse(before, was);
      MapsAgree(before, was);
      InverseStep(was, a);
      InvitedAgainNext(before, a);
      if a.Invited? { CallersTalked(before, was, a.peer); }
    }
  }

  /** It does happen: after two invitations from friend 7 the second call's index leads
      to a call with the first one's index. */
  lemma {:induction false} SecondInviteIsLost() returns (run: seq<Action>, s: Av)
    ensures Reaches(run, s) && !Inverse(s.maps)
    ensures 1 in s.maps.callToFriend && 7 in s.maps.friendToCall
    ensures s.maps.callToFriend[1] == 7 && s.maps.friendToCall[7].index == 0
  {
    var one := Apply(INITIAL, Invited(0, 7)).value;
    s := Apply(one, Invited(1, 7)).value;
    TwoSteps(Invited(0, 7), Invited(1, 7), one, s);
    run := [Invited(0, 7)] + [Invited(1, 7)];
    assert s.maps.callToFriend[1] == 7;
  }

  // ----- settings -----

  /** The settings with which the friend was last called or answered; zeroes before. */
  ghost function LastSettings(run: seq<Action>, f: nat): Settings {
    if run == [] then ZEROED
    else
      var before, a := run[..|run| - 1], run[|run| - 1];
      if a.Placed? && a.friend == f then a.settings
      else if a.Answered? && a.friend == f && Talked(before, f) then a.settings
      else LastSettings(before, f)
  }

  ghost predicate SettingsAre(m: Maps, f: nat, settings: Settings) {
    if f in m.friendToCall then m.friendToCall[f].settings == settings else settings == ZEROED
  }

  lemma {:induction false} SettingsStep(s: Av, a: Action, f: nat, settings: Settings)
    requires Allowed(s, a) && Apply(s, a).Some? && SettingsAre(s.maps, f, settings)
    ensures SettingsAre(Apply(s, a).value.maps, f,
                        if (a.Placed? && a.friend == f) || (a.Answered? && a.friend == f && f in s.maps.friendToCall)
                        then a.settings else settings)
  {
  }

  /** A call has the settings it was last given, whatever happened to it since. */
  lemma {:induction false} SettingsAreLast(run: seq<Action>, s: Av, f: nat)
    requires Reaches(run, s)
    ensures SettingsAre(s.maps, f, LastSettings(run, f))
  {
    if run != [] {
      var before, was, a := LastStep(run, s);
      SettingsAreLast(before, was, f);
      CallersTalked(before, was, f);
      SettingsStep(was, a, f, LastSettings(before, f));
    }
  }

  /** What the start of a call reports, and asks for next, when the friend was last called
      or answered with these bit rates. A call that was neither reports SENDING_NONE. */
  lemma {:induction false} StartSays(run: seq<Action>, s: Av, index: int, defaults: Settings, audio: nat, video: nat)
    requires Reaches(run, s) && Allowed(s, Started(index)) && Apply(s, Started(index)).Some?
    ensures var (f, t) := (s.maps.callToFriend[index], Apply(s, Started(index)).value);
            && f in t.maps.friendToCall
            && var c := t.maps.friendToCall[f];
               && t.events == s.events + [StateChanged(f, c.state)]
               && (LastSettings(run, f) == ZEROED ==> c.state == SENDING_NONE && !AudioDue(c) && !VideoDue(c))
               && (LastSettings(run, f) == MakeSettings(defaults, audio, video) && audio + video > 0 ==>
                    && c.state == (if video > 0 then SENDING_AV else SENDING_A)
                    && (VideoDue(c) <==> video > 0 && !c.videoPending)
                    && (AudioDue(c) <==> !c.audioPending))
  {
    MapsAgree(run, s);
    SettingsAreLast(run, s, s.maps.callToFriend[index]);
  }

  /** Which frames the call of a friend takes that was last called or answered with these
      bit rates: with audio just those of 60 milliseconds, 480 samples, at any bit rate. */
  lemma {:induction false} FramesOfCall(run: seq<Action>, s: Av, defaults: Settings, audio: nat, video: nat, a: Action)
    requires Reaches(run, s) && a.Sent? && Allowed(s, a) && audio > 0
    requires LastSettings(run, a.friend) == MakeSettings(defaults, audio, video)
    ensures Apply(s, a).Some? <==> a.sampleCount == 480 && a.channels == 1 && a.samplingRate == 8000
  {
    SettingsAreLast(run, s, a.friend);
  }

  // ----- what an invitation says -----

  /** What the k-th action, an invitation, makes of the events. */
  ghost function Invitation(run: seq<Action>, k: nat): Event
    requires k < |run| && run[k].Invited?
  {
    var t := LastSettings(run[..k], run[k].peer).callType;
    Called(run[k].peer, t != NoType, t == TypeVideo)
  }

  lemma {:induction false} PrefixReaches(run: seq<Action>, k: nat) returns (was: Av)
    requires k < |run| && Legal(run)
    ensures Reaches(run[..k], was) && Allowed(was, run[k])
    ensures k + 1 < |run| ==> Apply(was, run[k]).Some?
    ensures Legal(run[..k + 1]) && After(run[..k + 1]) == Apply(was, run[k])
    decreases |run| - k
  {
    if k + 1 == |run| {
      was := After(run[..k]).value;
      assert run[..k + 1] == run;
    } else {
      var before := run[..|run| - 1];
      was := PrefixReaches(before, k);
      assert before[..k] == run[..k] && before[..k + 1] == run[..k + 1];
      if k + 1 == |before| { assert before[..k + 1] == before; }
    }
  }

  /** An invitation reports audio if and only if the friend was last called, or answered,
      with settings for audio or video, and video if and only if those were for video;
      to a friend with whom there was no call it reports neither. */
  lemma {:induction false} InvitationSays(run: seq<Action>, s: Av, k: nat) returns (was: Av, now: Av)
    requires Reaches(run, s) && k < |run| && run[k].Invited?
    ensures Reaches(run[..k], was) && Reaches(run[..k + 1], now)
    ensures now.events == was.events + [Invitation(run, k)]
  {
    was := PrefixReaches(run, k);
    if k + 1 == |run| { assert run[..k + 1] == run; }
    now := Apply(was, run[k]).value;
    SettingsAreLast(run[..k], was, run[k].peer);
  }

  /** Some invitation came from a friend last called or answered with such settings. */
  ghost predicate MediaInvited(run: seq<Action>, video: bool) {
    exists k :: 0 <= k < |run| && run[k].Invited? && Wants(LastSettings(run[..k], run[k].peer).callType, video)
  }

  predicate Wants(t: CallType, video: bool) {
    if video then t == TypeVideo else t != NoType
  }

  predicate Reports(e: Event, video: bool) {
    e.Called? && if video then e.video else e.audio
  }

  lemma {:induction false} MediaInvitedNext(before: seq<Action>, a: Action, video: bool)
    ensures MediaInvited(before + [a], video) <==>
            MediaInvited(before, video) || (a.Invited? && Wants(LastSettings(before, a.peer).callType, video))
  {
    var run := before + [a];
    assert forall k :: 0 <= k < |before| ==> run[..k] == before[..k];
    assert run[..|before|] == before && run[|before|] == a;
    if MediaInvited(before, video) {
      var k :| 0 <= k < |before| && before[k].Invited?
               && Wants(LastSettings(before[..k], before[k].peer).callType, video);
      assert run[k].Invited? && Wants(LastSettings(run[..k], run[k].peer).callType, video);
    }
    if MediaInvited(run, video) {
      var k :| 0 <= k < |run| && run[k].Invited? && Wants(LastSettings(run[..k], run[k].peer).callType, video);
      if k < |before| { assert before[k].Invited? && Wants(LastSettings(before[..k], before[k].peer).callType, video); }
    }
  }

  lemma {:induction false} OutcomeReports(s: Av, a: Action, settings: Settings, video: bool)
    requires Allowed(s, a) && Apply(s, a).Some?
    requires a.Invited? ==> SettingsAre(s.maps, a.peer, settings)
    ensures (exists e :: e in Outcome(s, a).value.1 && Reports(e, video)) <==>
            a.Invited? && Wants(settings.callType, video)
  {
    if a.Iterated? { VisitReportsNothing(s.maps.friendToCall, a.order); }
    if a.Invited? {
      var t := settings.callType;
      var called := Called(a.peer, t != NoType, t == TypeVideo);
      assert Outcome(s, a).value.1 == [called];
      assert called in Outcome(s, a).value.1;
      assert Reports(called, video) <==> Wants(t, video);
    }
  }

  /** So over a whole run audio (or video) is reported by some invitation if and only if
      some friend invited us who had last been called or answered with such settings. */
  lemma {:induction false} InvitationsReportMedia(run: seq<Action>, s: Av, video: bool)
    requires Reaches(run, s)
    ensures (exists e :: e in s.events && Reports(e, video)) <==> MediaInvited(run, video)
  {
    if run != [] {
      var before, was, a := LastStep(run, s);
      InvitationsReportMedia(before, was, video);
      MediaInvitedNext(before, a, video);
      var settings := if a.Invited? then LastSettings(before, a.peer) else ZEROED;
      if a.Invited? { SettingsAreLast(before, was, a.peer); }
      OutcomeReports(was, a, settings, video);
      InConcat(was.events, Outcome(was, a).value.1, video);
    }
  }

  lemma {:induction false} InConcat(a: seq<Event>, b: seq<Event>, video: bool)
    ensures (exists e :: e in a + b && Reports(e, video)) <==>
            (exists e :: e in a && Reports(e, video)) || (exists e :: e in b && Reports(e, video))
  {
    assert forall e :: e in a + b <==> e in a || e in b;
  }

  /** A second invitation reports nothing when no call was placed or answered. */
  lemma {:induction false} SecondInviteIsSilent() returns (run: seq<Action>, s: Av)
    ensures run == [Invited(0, 7), Invited(1, 7)] && Reaches(run, s) && InvitedAgain(run)
    ensures s.events == [Called(7, false, false), Called(7, false, false)]
  {
    var one := Apply(INITIAL, Invited(0, 7)).value;
    s := Apply(one, Invited(1, 7)).value;
    TwoSteps(Invited(0, 7), Invited(1, 7), one, s);
    run := [Invited(0, 7)] + [Invited(1, 7)];
    InvitedAgainNext([Invited(0, 7)], Invited(1, 7));
    assert Opens([Invited(0, 7)][0], 7);
  }

  /** An invitation from a friend called with video reports audio and video. */
  lemma {:induction false} InviteAfterCallReports(video: Settings) returns (run: seq<Action>, s: Av)
    requires video.callType == TypeVideo
    ensures run == [Placed(7, video, 0), Invited(1, 7)] && Reaches(run, s)
    ensures s.events == [Called(7, true, true)]
  {
    var one := Apply(INITIAL, Placed(7, video, 0)).value;
    s := Apply(one, Invited(1, 7)).value;
    TwoSteps(Placed(7, video, 0), Invited(1, 7), one, s);
    run := [Placed(7, video, 0)] + [Invited(1, 7)];
  }

  lemma {:induction false} TwoSteps(a: Action, b: Action, one: Av, s: Av)
    requires Allowed(INITIAL, a) && Apply(INITIAL, a) == Some(one) && Allowed(one, b) && Apply(one, b) == Some(s)
    ensures Reaches([a], one) && Reaches([a] + [b], s)
  {
    NextReaches([], INITIAL, a, one);
    assert [] + [a] == [a];
    NextReaches([a], one, b, s);
  }

  lemma {:induction false} NextReaches(run: seq<Action>, s: Av, a: Action, s': Av)
    requires Reaches(run, s) && Allowed(s, a) && Apply(s, a) == Some(s')
    ensures Reaches(run + [a], s')
  {
    assert (run + [a])[..|run + [a]| - 1] == run;
  }
}

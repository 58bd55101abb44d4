/**
 * The call-session state machine of the consolidated `call:*` events: the
 * session table `activeCalls`, the busy index `userToCall`, the ring timer,
 * the relayed signals and the push requests they trigger.
 */
module Calls {
  import opened Wrappers
  import opened Events

  /**
   * One entry of `activeCalls`: caller `a`, callee `b`, state, media kind,
   * start time, and whether its ring timer is still pending.
   */
  datatype Session = Session(
    callId: string, a: string, b: string, state: CallState, kind: string,
    startedAt: int, ringTimer: bool)

  predicate Involves(s: Session, u: string)
  {
    u == s.a || u == s.b
  }

  /**
   * `who === s.a ? s.b : s.a`: where a participant's signal is relayed. The
   * caller's goes to the callee, the callee's to the caller, and an event
   * from anyone else who knows the id goes to the caller.
   */
  function PeerOf(s: Session, who: string): (r: string)
    ensures Involves(s, r)
    ensures who == s.a ==> r == s.b
    ensures who != s.a ==> r == s.a
    ensures Involves(s, who) && s.a != s.b ==> r != who
  {
    if who == s.a then s.b else s.a
  }

  /**
   * The co-update invariant: every indexed user names a live session that
   * involves them, and both participants of every live session are indexed
   * to it.
   */
  ghost predicate CoIndexed(calls: map<string, Session>, index: map<string, string>)
  {
    && (forall u :: u in index ==> index[u] in calls && Involves(calls[index[u]], u))
    && (forall id :: id in calls ==>
          && calls[id].a in index && index[calls[id].a] == id
          && calls[id].b in index && index[calls[id].b] == id)
  }

  /** Under the invariant a user is indexed exactly when some live session involves them. */
  lemma IndexedIffInSession(calls: map<string, Session>, index: map<string, string>, u: string)
    requires CoIndexed(calls, index)
    ensures u in index <==> exists id :: id in calls && Involves(calls[id], u)
  {
    if u in index {
      assert index[u] in calls && Involves(calls[index[u]], u);
    }
  }

  /** Under the invariant no user takes part in two live sessions. */
  lemma AtMostOneSession(calls: map<string, Session>, index: map<string, string>, u: string, i: string, j: string)
    requires CoIndexed(calls, index)
    requires i in calls && j in calls && Involves(calls[i], u) && Involves(calls[j], u)
    ensures i == j
  {
  }

  /** `cleanupCall` on values: drop the session and both participants' index entries. */
  function WithoutCall(calls: map<string, Session>, index: map<string, string>, id: string)
    : (r: (map<string, Session>, map<string, string>))
    requires CoIndexed(calls, index)
    ensures CoIndexed(r.0, r.1)
    ensures r.0 == calls - {id}
    ensures id !in calls ==> r.1 == index
    ensures id in calls ==> r.1 == index - {calls[id].a, calls[id].b}
    ensures id in calls ==> calls[id].a !in r.1 && calls[id].b !in r.1
  {
    if id in calls then (calls - {id}, index - {calls[id].a, calls[id].b}) else (calls, index)
  }

  /** Registering a new session whose participants are both free keeps the invariant. */
  function WithCall(calls: map<string, Session>, index: map<string, string>, s: Session)
    : (r: (map<string, Session>, map<string, string>))
    requires CoIndexed(calls, index)
    requires s.callId !in calls && s.a !in index && s.b !in index
    ensures CoIndexed(r.0, r.1)
    ensures r.0 == calls[s.callId := s]
    ensures r.1 == index[s.a := s.callId][s.b := s.callId]
  {
    (calls[s.callId := s], index[s.a := s.callId][s.b := s.callId])
  }

  /** Replacing a session by one with the same participants keeps the invariant. */
  lemma ReplaceKeepsCoIndexed(calls: map<string, Session>, index: map<string, string>, id: string, s: Session)
    requires CoIndexed(calls, index)
    requires id in calls && s.a == calls[id].a && s.b == calls[id].b
    ensures CoIndexed(calls[id := s], index)
  {
  }

  /**
   * Each session is filed under its own non-empty id, has a kind, and has its
   * ring timer pending exactly while it rings.
   */
  ghost predicate SessionOk(id: string, s: Session)
  {
    s.callId == id && id != "" && s.kind != "" && (s.ringTimer <==> s.state == Ringing)
  }

  ghost predicate SessionsOk(calls: map<string, Session>)
  {
    forall id :: id in calls ==> SessionOk(id, calls[id])
  }

  lemma SessionsOkUpdate(calls: map<string, Session>, id: string, s: Session)
    requires SessionsOk(calls) && SessionOk(id, s)
    ensures SessionsOk(calls[id := s])
  {
  }

  /** How the invite handler disposes of an invite. */
  datatype InviteOutcome = Malformed | Busy | Placed

  /**
   * An invite without a callee or a well-formed offer is dropped; one where
   * either party is already indexed is refused as busy; any other is placed.
   */
  function ClassifyInvite(index: map<string, string>, from: string, to: string, sdp: Option<Sdp>)
    : (r: InviteOutcome)
    ensures r == Malformed <==> to == "" || !WellFormedSdp(sdp)
    ensures r == Busy <==> to != "" && WellFormedSdp(sdp) && (from in index || to in index)
    ensures r == Placed ==> from !in index && to !in index
  {
    if to == "" || !WellFormedSdp(sdp) then Malformed
    else if from in index || to in index then Busy
    else Placed
  }

  /** `data.kind || 'audio'`. */
  function KindOrAudio(kind: string): (r: string)
    ensures r != ""
    ensures kind != "" ==> r == kind
  {
    if kind == "" then "audio" else kind
  }

  /** The emits of the hangup handler, in order. */
  function HangupEmits(s: Session, who: string, at: int): seq<Emit>
  {
    var peer := PeerOf(s, who);
    [Emit(Room(peer), "callEnded", true, CallEndedInfo(s.callId, who, at, s.state.Name()))]
    + (if who == s.a then
         [Emit(Room(peer), "CANCEL", true, CancelInfo(s.callId, who, at, s.state.Name(), "caller_hung_up")),
          Emit(Room(peer), "callCancelled", true, CancelledInfo(s.callId, who, at))]
       else [])
    + [Emit(Room(peer), "call:ended", true, EndedInfo(s.callId, who, Some(at))),
       Emit(Room(who), "call:ended", true, EndedInfo(s.callId, who, Some(at)))]
  }

  /**
   * The push the hangup handler requests: always when the caller hangs up,
   * otherwise only when the peer has no live socket.
   */
  function HangupPushes(s: Session, who: string, at: int, peerConnected: bool, user: Option<Profile>)
    : (r: seq<PushRequest>)
    ensures |r| <= 1
    ensures |r| == 1 <==> who == s.a || !peerConnected
    ensures |r| == 1 ==> r[0].CallEndedPush? && r[0].recipient == PeerOf(s, who)
                         && r[0].callId == s.callId && r[0].timestamp == at
  {
    if who == s.a then [CallEndedPush(PeerOf(s, who), s.callId, DisplayName(user, "Unknown Caller"), at)]
    else if !peerConnected then [CallEndedPush(PeerOf(s, who), s.callId, DisplayName(user, "Unknown"), at)]
    else []
  }

  lemma CountOne(e: Emit, to: Target, event: string)
    ensures CountEmits([e], to, event) == if e.to == to && e.event == event then 1 else 0
  {
    assert [e][..0] == [];
  }

  /** `CountEmits` over the hangup emits, one term per emit. */
  lemma {:induction false} HangupCount(s: Session, who: string, at: int, to: Target, event: string)
    ensures var peer := PeerOf(s, who);
      var m := if Room(peer) == to then 1 else 0;
      CountEmits(HangupEmits(s, who, at), to, event)
        == (if event == "callEnded" then m else 0)
         + (if who == s.a && event == "CANCEL" then m else 0)
         + (if who == s.a && event == "callCancelled" then m else 0)
         + (if event == "call:ended" then m else 0)
         + (if event == "call:ended" && Room(who) == to then 1 else 0)
  {
    var peer := PeerOf(s, who);
    var f := Emit(Room(peer), "callEnded", true, CallEndedInfo(s.callId, who, at, s.state.Name()));
    var c1 := Emit(Room(peer), "CANCEL", true, CancelInfo(s.callId, who, at, s.state.Name(), "caller_hung_up"));
    var c2 := Emit(Room(peer), "callCancelled", true, CancelledInfo(s.callId, who, at));
    var l1 := Emit(Room(peer), "call:ended", true, EndedInfo(s.callId, who, Some(at)));
    var l2 := Emit(Room(who), "call:ended", true, EndedInfo(s.callId, who, Some(at)));
    var cancels := if who == s.a then [c1] + [c2] else [];
    assert HangupEmits(s, who, at) == [f] + cancels + ([l1] + [l2]);
    CountEmitsAppend([f] + cancels, [l1] + [l2], to, event);
    CountEmitsAppend([f], cancels, to, event);
    CountEmitsAppend([l1], [l2], to, event);
    CountEmitsAppend([c1], [c2], to, event);
    CountOne(f, to, event);
    CountOne(c1, to, event);
    CountOne(c2, to, event);
    CountOne(l1, to, event);
    CountOne(l2, to, event);
  }

  /**
   * The cancel signals of a hangup go to the peer only when the caller hangs
   * up; the peer gets exactly one `callEnded`, and, in a call between two
   * different users, exactly one `call:ended`. Every hangup signal is volatile.
   */
  lemma HangupSignals(s: Session, who: string, at: int)
    ensures var e := HangupEmits(s, who, at);
      && CountEmits(e, Room(PeerOf(s, who)), "CANCEL") == (if who == s.a then 1 else 0)
      && CountEmits(e, Room(PeerOf(s, who)), "callCancelled") == (if who == s.a then 1 else 0)
      && CountEmits(e, Room(PeerOf(s, who)), "callEnded") == 1
      && (PeerOf(s, who) != who ==> CountEmits(e, Room(PeerOf(s, who)), "call:ended") == 1)
      && (forall i :: 0 <= i < |e| ==> e[i].volatile)
  {
    var peer := Room(PeerOf(s, who));
    HangupCount(s, who, at, peer, "CANCEL");
    HangupCount(s, who, at, peer, "callCancelled");
    HangupCount(s, who, at, peer, "callEnded");
    HangupCount(s, who, at, peer, "call:ended");
  }

  /** The answer of `/calls/:callId/status`. */
  datatype CallStatus =
    | Inactive(callId: string)
    | Active(callId: string, state: string, startedAt: int, kind: string)

  class CallTable {
    /** `activeCalls`: callId to session. */
    var activeCalls: map<string, Session>
    /** `userToCall`: the busy index, user to callId. */
    var userToCall: map<string, string>
    /** Every emit made so far, oldest first. */
    var log: seq<Emit>
    /** Every push requested so far, oldest first. */
    var pushes: seq<PushRequest>

    ghost predicate Valid()
      reads this
    {
      CoIndexed(activeCalls, userToCall) && SessionsOk(activeCalls)
    }

    constructor ()
      ensures Valid()
      ensures activeCalls == map[] && userToCall == map[] && log == [] && pushes == []
    {
      activeCalls, userToCall, log, pushes := map[], map[], [], [];
    }

    /** `cleanupCall`: the one removal path; clears the timer with the session. */
    method Cleanup(callId: string)
      requires Valid()
      modifies this
      ensures Valid()
      ensures (activeCalls, userToCall) == WithoutCall(old(activeCalls), old(userToCall), callId)
      ensures log == old(log) && pushes == old(pushes)
    {
      if callId in activeCalls {
        var s := activeCalls[callId];
        userToCall := userToCall - {s.a};
        userToCall := userToCall - {s.b};
        activeCalls := activeCalls - {callId};
        assert userToCall == old(userToCall) - {s.a, s.b};
      }
    }

    /**
     * `call:invite` from `from`. `callId` is the value `newCallId` drew, which
     * the handler never checks against the table: it is taken to be fresh.
     */
    method Invite(from: string, to: string, sdp: Option<Sdp>, kind: string,
                  callId: string, now: int, caller: Option<Profile>)
      requires Valid()
      requires callId != "" && callId !in activeCalls
      modifies this
      ensures Valid()
      ensures ClassifyInvite(old(userToCall), from, to, sdp) == Malformed ==> unchanged(this)
      ensures ClassifyInvite(old(userToCall), from, to, sdp) == Busy ==>
        && activeCalls == old(activeCalls) && userToCall == old(userToCall) && pushes == old(pushes)
        && log == old(log) + [Emit(Room(from), "call:busy", true, BusyInfo(to))]
      ensures ClassifyInvite(old(userToCall), from, to, sdp) == Placed ==>
        var k := KindOrAudio(kind);
        && activeCalls == old(activeCalls)[callId := Session(callId, from, to, Ringing, k, now, true)]
        && userToCall == old(userToCall)[from := callId][to := callId]
        && log == old(log) + [Emit(Room(to), "call:incoming", true, IncomingInfo(callId, from, sdp.value, k, now)),
                              Emit(Room(from), "call:ringing", true, RingingInfo(callId, to, k, now))]
        && pushes == old(pushes) + [CallPush(to, CallData(callId, from, to, k, k == "video", sdp, Some(now)),
                                             DisplayName(caller, "Unknown Caller"))]
    {
      var outcome := ClassifyInvite(userToCall, from, to, sdp);
      if outcome == Malformed {
        return;
      }
      if outcome == Busy {
        log := log + [Emit(Room(from), "call:busy", true, BusyInfo(to))];
        return;
      }
      var k := KindOrAudio(kind);
      // The session as the handler leaves it: its ring timer (armed at the end
      // of the handler) is pending.
      var session := Session(callId, from, to, Ringing, k, now, true);
      SessionsOkUpdate(activeCalls, callId, session);
      var tables := WithCall(activeCalls, userToCall, session);
      activeCalls, userToCall := tables.0, tables.1;
      log := log + [Emit(Room(to), "call:incoming", true, IncomingInfo(callId, from, sdp.value, k, now)),
                    Emit(Room(from), "call:ringing", true, RingingInfo(callId, to, k, now))];
      pushes := pushes + [CallPush(to, CallData(callId, from, to, k, k == "video", sdp, Some(now)),
                                   DisplayName(caller, "Unknown Caller"))];
    }

    /**
     * `call:answer` from `who`: a decline ends the call for both parties; an
     * accept with a well-formed answer moves the session to `answered`, clears
     * its ring timer and relays the answer to the caller.
     */
    method Answer(who: string, callId: string, accept: bool, sdp: Option<Sdp>)
      requires Valid()
      modifies this
      ensures Valid()
      ensures callId !in old(activeCalls) ==> unchanged(this)
      ensures callId in old(activeCalls) && !accept ==>
        var s := old(activeCalls)[callId];
        && (activeCalls, userToCall) == WithoutCall(old(activeCalls), old(userToCall), callId)
        && pushes == old(pushes)
        && log == old(log) + [Emit(Room(s.a), "call:declined", true, DeclinedInfo(callId, who)),
                              Emit(Room(s.b), "call:declined", true, DeclinedInfo(callId, who))]
      ensures callId in old(activeCalls) && accept && !WellFormedSdp(sdp) ==> unchanged(this)
      ensures callId in old(activeCalls) && accept && WellFormedSdp(sdp) ==>
        var s := old(activeCalls)[callId];
        && activeCalls == old(activeCalls)[callId := s.(state := Answered, ringTimer := false)]
        && userToCall == old(userToCall) && pushes == old(pushes)
        && log == old(log) + [Emit(Room(s.a), "call:answer", true, AnswerInfo(callId, s.b, sdp.value, s.kind))]
    {
      if callId == "" || callId !in activeCalls {
        return;
      }
      var s := activeCalls[callId];
      if !accept {
        log := log + [Emit(Room(s.a), "call:declined", true, DeclinedInfo(callId, who)),
                      Emit(Room(s.b), "call:declined", true, DeclinedInfo(callId, who))];
        Cleanup(callId);
        return;
      }
      if !WellFormedSdp(sdp) {
        return;
      }
      s := s.(state := Answered);
      s := s.(ringTimer := false);
      ReplaceKeepsCoIndexed(activeCalls, userToCall, callId, s);
      SessionsOkUpdate(activeCalls, callId, s);
      activeCalls := activeCalls[callId := s];
      log := log + [Emit(Room(s.a), "call:answer", true, AnswerInfo(callId, s.b, sdp.value, s.kind))];
    }

    /** `call:candidate` from `who`: relayed unchanged to the other participant. */
    method Candidate(who: string, callId: string, candidate: string)
      requires Valid()
      modifies this
      ensures Valid()
      ensures activeCalls == old(activeCalls) && userToCall == old(userToCall) && pushes == old(pushes)
      ensures callId == "" || candidate == "" || callId !in old(activeCalls) ==> log == old(log)
      ensures callId != "" && candidate != "" && callId in old(activeCalls) ==>
        log == old(log) + [Emit(Room(PeerOf(old(activeCalls)[callId], who)), "call:candidate", true,
                                CandidateInfo(callId, who, candidate))]
    {
      if callId == "" || candidate == "" {
        return;
      }
      if callId !in activeCalls {
        return;
      }
      var s := activeCalls[callId];
      var peer := PeerOf(s, who);
      log := log + [Emit(Room(peer), "call:candidate", true, CandidateInfo(callId, who, candidate))];
    }

    /**
     * `call:hangup` from `who` at time `at`; `connected` is the set of users
     * with a live socket and `user` the hanger-up's profile.
     */
    method Hangup(who: string, callId: string, at: int, connected: set<string>, user: Option<Profile>)
      requires Valid()
      modifies this
      ensures Valid()
      ensures callId !in old(activeCalls) ==> unchanged(this)
      ensures callId in old(activeCalls) ==>
        var s := old(activeCalls)[callId];
        && (activeCalls, userToCall) == WithoutCall(old(activeCalls), old(userToCall), callId)
        && log == old(log) + HangupEmits(s, who, at)
        && pushes == old(pushes) + HangupPushes(s, who, at, PeerOf(s, who) in connected, user)
    {
      if callId == "" || callId !in activeCalls {
        return;
      }
      var s := activeCalls[callId];
      var peer := PeerOf(s, who);
      var isCaller := who == s.a;
      log := log + [Emit(Room(peer), "callEnded", true, CallEndedInfo(callId, who, at, s.state.Name()))];
      if isCaller {
        log := log + [Emit(Room(peer), "CANCEL", true, CancelInfo(callId, who, at, s.state.Name(), "caller_hung_up")),
                      Emit(Room(peer), "callCancelled", true, CancelledInfo(callId, who, at))];
      }
      log := log + [Emit(Room(peer), "call:ended", true, EndedInfo(callId, who, Some(at))),
                    Emit(Room(who), "call:ended", true, EndedInfo(callId, who, Some(at)))];
      var isPeerConnected := peer in connected;
      if isCaller {
        pushes := pushes + [CallEndedPush(peer, callId, DisplayName(user, "Unknown Caller"), at)];
      } else if !isPeerConnected {
        pushes := pushes + [CallEndedPush(peer, callId, DisplayName(user, "Unknown"), at)];
      }
      Cleanup(callId);
    }

    /**
     * The ring-timer callback of session `callId`, which the invite handler
     * arms for 40000 ms; when it fires is left to the caller. It acts only on a session
     * that still exists and is still ringing, so it never ends an answered
     * call, and that guard holds exactly while the timer is pending.
     */
    method FireTimeout(callId: string)
      requires Valid()
      modifies this
      ensures Valid()
      ensures callId in old(activeCalls) ==>
        (old(activeCalls)[callId].state == Ringing <==> old(activeCalls)[callId].ringTimer)
      ensures callId !in old(activeCalls) || old(activeCalls)[callId].state != Ringing ==> unchanged(this)
      ensures callId in old(activeCalls) && old(activeCalls)[callId].state == Ringing ==>
        var s := old(activeCalls)[callId];
        && (activeCalls, userToCall) == WithoutCall(old(activeCalls), old(userToCall), callId)
        && pushes == old(pushes)
        && log == old(log) + [Emit(Room(s.a), "call:ended", true, EndedInfo(callId, "timeout", None)),
                              Emit(Room(s.b), "call:ended", true, EndedInfo(callId, "timeout", None))]
    {
      if callId in activeCalls && activeCalls[callId].state == Ringing {
        var s := activeCalls[callId];
        log := log + [Emit(Room(s.a), "call:ended", true, EndedInfo(callId, "timeout", None)),
                      Emit(Room(s.b), "call:ended", true, EndedInfo(callId, "timeout", None))];
        Cleanup(callId);
      }
    }

    /**
     * The in-call branch of `disconnect`: a user indexed to a session ends it,
     * the other participant getting exactly one `call:ended`, and the session
     * leaves both the table and the index.
     */
    method EndOnDisconnect(uid: string)
      requires Valid()
      modifies this
      ensures Valid()
      ensures uid !in old(userToCall) ==> unchanged(this)
      ensures uid in old(userToCall) ==>
        var id := old(userToCall)[uid];
        && id in old(activeCalls)
        && var s := old(activeCalls)[id];
        && (activeCalls, userToCall) == WithoutCall(old(activeCalls), old(userToCall), id)
        && uid !in userToCall && PeerOf(s, uid) !in userToCall && id !in activeCalls
        && pushes == old(pushes)
        && log == old(log) + [Emit(Room(PeerOf(s, uid)), "call:ended", true, EndedInfo(id, "disconnect", None))]
    {
      if uid in userToCall {
        var callId := userToCall[uid];
        if callId != "" {
          if callId in activeCalls {
            var s := activeCalls[callId];
            var peer := PeerOf(s, uid);
            log := log + [Emit(Room(peer), "call:ended", true, EndedInfo(callId, "disconnect", None))];
          }
          Cleanup(callId);
        }
      }
    }

    /** `/calls/:callId/status`: whether the session is live, and if so its state and kind. */
    function Status(callId: string): (r: CallStatus)
      reads this
      requires Valid()
      ensures r.callId == callId
      ensures r.Active? <==> callId in activeCalls
      ensures r.Active? ==> r.state == activeCalls[callId].state.Name()
                            && r.startedAt == activeCalls[callId].startedAt
                            && r.kind == activeCalls[callId].kind
    {
      if callId !in activeCalls then Inactive(callId)
      else
        var s := activeCalls[callId];
        Active(callId, s.state.Name(), s.startedAt, KindOrAudio(s.kind))
    }
  }
}

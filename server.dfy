/**
 * The socket server: one presence registry, one call table and one cursor
 * store, composed the way the `connection` and `disconnect` handlers use them,
 * the message push decision of the message route, and the hand-off of a
 * requested push to its payload builder.
 */
module Server {
  import opened Wrappers
  import opened Events
  import opened Presence
  import opened Calls
  import opened Cursors
  import opened Fcm

  /**
   * The message route's push decision: a push only when the recipient has no
   * live socket and the message is not call activity; the sender is named by
   * `name`, or `Someone`.
   */
  function MessagePushFor(m: MessageData, recipientConnected: bool, sender: Option<Profile>)
    : (r: Option<PushRequest>)
    ensures r.Some? <==> !recipientConnected && !m.callActivity
    ensures r.Some? ==> r.value.MessagePush? && r.value.recipient == m.to && r.value.message == m
                        && r.value.senderName != ""
                        && r.value.senderName == if sender.Some? && sender.value.name != "" then sender.value.name else "Someone"
  {
    if !recipientConnected && !m.callActivity then
      var name := if sender.Some? && sender.value.name != "" then sender.value.name else "Someone";
      Some(MessagePush(m.to, m, name))
    else None
  }

  /**
   * A message push never carries `callActivity`: call activity is never
   * pushed, and the payload has that key only for call activity.
   */
  lemma MessagePushHasNoCallActivity(m: MessageData, recipientConnected: bool, sender: Option<Profile>)
    ensures var r := MessagePushFor(m, recipientConnected, sender);
      r.Some? ==> "callActivity" !in FcmData(MessageEntries(r.value.message))
                  && FcmData(MessageEntries(r.value.message))["type"] == "message"
  {
    MessagePayload(m);
    MessagePayloadOptional(m);
  }

  /**
   * Hands a requested push to its builder. `recipient` is the recipient's
   * profile and `caller` the caller's (for the call push's avatar); that
   * `caller` is the profile stored under `req.call.from` is left to the caller
   * of this method, since a profile carries no id.
   */
  method Dispatch(req: PushRequest, fcmReady: bool, recipient: Option<Profile>, caller: Option<Profile>, now: int)
    returns (sent: Option<FcmMessage>)
    ensures sent.Some? <==> fcmReady && TokenOf(recipient).Some?
    ensures sent.Some? ==> sent.value.token == recipient.value.fcmToken
    ensures sent.Some? && req.MessagePush? ==>
      sent.value.notification.Some? && sent.value.data == FcmData(MessageEntries(req.message))
    ensures sent.Some? && req.CallPush? ==>
      sent.value.notification.None? && sent.value.data == CallPayload(req.call, req.callerName, caller, now)
    ensures sent.Some? && req.CallEndedPush? ==>
      sent.value.notification.None? && sent.value.data == CancelPayload(req.callId, req.name, req.timestamp, now)
  {
    match req
    case MessagePush(_, m, senderName) =>
      sent := SendMessageNotification(fcmReady, recipient, m, senderName);
    case CallPush(_, call, callerName) =>
      sent := CallNotification(fcmReady, recipient, call, callerName, caller, now);
    case CallEndedPush(_, callId, name, timestamp) =>
      sent := CallEndedNotification(fcmReady, recipient, callId, name, timestamp, now);
  }

  class SocketServer {
    const presence: PresenceRegistry
    const calls: CallTable
    const cursors: CursorStore

    ghost predicate Valid()
      reads this, presence, calls
    {
      presence.Valid() && calls.Valid()
    }

    constructor (conversations: map<string, Conversation>, messages: map<string, Message>)
      ensures Valid()
      ensures fresh(presence) && fresh(calls) && fresh(cursors)
      ensures presence.onlineCounts == map[] && calls.activeCalls == map[]
      ensures cursors.conversations == conversations && cursors.messages == messages
    {
      presence := new PresenceRegistry();
      calls := new CallTable();
      cursors := new CursorStore(conversations, messages);
    }

    /**
     * The `connection` handler of an authenticated socket of `uid`: count it
     * (announcing the user online on the first socket), then catch up the
     * deliveries made while the user was away; `groups` is the aggregation's
     * answer.
     */
    method Connect(uid: string, now: int, groups: seq<Group>)
      requires Valid()
      modifies presence, cursors
      ensures Valid()
      ensures presence.onlineCounts == old(presence.onlineCounts)[uid := old(presence.Count(uid)) + 1]
      ensures presence.IsOnline(uid)
      ensures old(presence.Count(uid)) == 0 ==>
        && presence.lastPresenceAt == old(presence.lastPresenceAt)[uid := now]
        && presence.log == old(presence.log) + [Announce(uid, true, now)]
      ensures old(presence.Count(uid)) > 0 ==>
        && presence.lastPresenceAt == old(presence.lastPresenceAt)
        && presence.log == old(presence.log)
      ensures cursors.conversations ==
        CatchupStore(old(cursors.conversations), groups, old(cursors.conversations), uid)
      ensures cursors.log == old(cursors.log) + CatchupNotices(groups, old(cursors.conversations), uid)
    {
      presence.Connect(uid, now);
      cursors.CatchupDelivered(uid, groups);
    }

    /**
     * The `disconnect` handler: uncount the socket (announcing the user
     * offline with the last one), then end the user's call, if any, on every
     * disconnect whether or not other sockets remain.
     */
    method Disconnect(uid: string, now: int)
      requires Valid()
      modifies presence, calls
      ensures Valid()
      ensures (old(presence.Count(uid)) <= 1) <==> !presence.IsOnline(uid)
      ensures old(presence.Count(uid)) <= 1 ==>
        && presence.onlineCounts == old(presence.onlineCounts) - {uid}
        && presence.lastPresenceAt == old(presence.lastPresenceAt)[uid := now]
        && presence.log == old(presence.log) + [Announce(uid, false, now)]
      ensures old(presence.Count(uid)) > 1 ==>
        && presence.onlineCounts == old(presence.onlineCounts)[uid := old(presence.Count(uid)) - 1]
        && presence.lastPresenceAt == old(presence.lastPresenceAt)
        && presence.log == old(presence.log)
      ensures uid !in calls.userToCall
      ensures calls.pushes == old(calls.pushes)
      ensures uid in old(calls.userToCall) ==>
        var id := old(calls.userToCall)[uid];
        var s := old(calls.activeCalls)[id];
        && (calls.activeCalls, calls.userToCall) == WithoutCall(old(calls.activeCalls), old(calls.userToCall), id)
        && calls.log == old(calls.log) + [Emit(Room(PeerOf(s, uid)), "call:ended", true, EndedInfo(id, "disconnect", None))]
      ensures uid !in old(calls.userToCall) ==>
        && calls.activeCalls == old(calls.activeCalls) && calls.userToCall == old(calls.userToCall)
        && calls.log == old(calls.log)
    {
      presence.Disconnect(uid, now);
      calls.EndOnDisconnect(uid);
    }

    /** `call:hangup`, the peer counting as connected while it has a live socket. */
    method Hangup(who: string, callId: string, at: int, user: Option<Profile>)
      requires Valid()
      modifies calls
      ensures Valid()
      ensures callId !in old(calls.activeCalls) ==> unchanged(calls)
      ensures callId in old(calls.activeCalls) ==>
        var s := old(calls.activeCalls)[callId];
        && (calls.activeCalls, calls.userToCall) == WithoutCall(old(calls.activeCalls), old(calls.userToCall), callId)
        && calls.log == old(calls.log) + HangupEmits(s, who, at)
        && calls.pushes == old(calls.pushes)
             + HangupPushes(s, who, at, presence.IsOnline(PeerOf(s, who)), user)
    {
      calls.Hangup(who, callId, at, presence.onlineCounts.Keys, user);
    }
  }
}

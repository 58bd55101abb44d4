/**
 * The values the coordination layer exchanges with the outside: the records
 * of the outbound emit log, the push-notification requests handed to the
 * push module, and the small records they carry.
 */
module Events {
  import opened Wrappers

  /** A session description as the client sends it: `{ type, sdp }`. */
  datatype Sdp = Sdp(kind: string, text: string)

  /** `sdp?.type && sdp?.sdp`: present with both fields non-empty. */
  predicate WellFormedSdp(sdp: Option<Sdp>)
  {
    sdp.Some? && sdp.value.kind != "" && sdp.value.text != ""
  }

  /** The two states a live call session can be in. */
  datatype CallState = Ringing | Answered {
    /** The string the source stores in `session.state`. */
    function Name(): string
    {
      match this
      case Ringing => "ringing"
      case Answered => "answered"
    }
  }

  /** Where an emit goes: one user's room, or every connected socket. */
  datatype Target = Room(uid: string) | Everyone

  /** The payload of each outbound event, field by field (the source's `by` field is `actor` here). */
  datatype Payload =
    | PresenceInfo(uid: string, online: bool, at: int)
    | DeliveredInfo(messageId: string, conversationId: string, actor: string, at: int)
    | ReadInfo(conversationId: string, actor: string, at: int)
    | IncomingInfo(callId: string, from: string, sdp: Sdp, kind: string, timestamp: int)
    | RingingInfo(callId: string, to: string, kind: string, timestamp: int)
    | BusyInfo(to: string)
    | AnswerInfo(callId: string, from: string, sdp: Sdp, kind: string)
    | DeclinedInfo(callId: string, from: string)
    | CandidateInfo(callId: string, from: string, candidate: string)
    | EndedInfo(callId: string, actor: string, endedAt: Option<int>)
    | CallEndedInfo(callId: string, actor: string, timestamp: int, state: string)
    | CancelInfo(callId: string, actor: string, timestamp: int, state: string, reason: string)
    | CancelledInfo(callId: string, actor: string, timestamp: int)

  /** One outbound emit: target, event name, whether it was sent volatile, payload. */
  datatype Emit = Emit(to: Target, event: string, volatile: bool, payload: Payload)

  /** A user profile as the handlers read it (`name`, `email`, `avatarUrl`, `fcmToken`). */
  datatype Profile = Profile(name: string, email: string, avatarUrl: string, fcmToken: string)

  /** `user?.name || user?.email || fallback`. */
  function DisplayName(user: Option<Profile>, fallback: string): (r: string)
    ensures user.Some? && user.value.name != "" ==> r == user.value.name
    ensures user.Some? && user.value.name == "" && user.value.email != "" ==> r == user.value.email
    ensures user.None? || (user.value.name == "" && user.value.email == "") ==> r == fallback
  {
    if user.Some? && user.value.name != "" then user.value.name
    else if user.Some? && user.value.email != "" then user.value.email
    else fallback
  }

  /** `ts || now` for a client-supplied time: absent or 0 (falsy) means `now`. */
  function TimeOr(ts: Option<int>, now: int): int
  {
    if ts.Some? && ts.value != 0 then ts.value else now
  }

  /** The call data the invite handler hands to the push module. */
  datatype CallData = CallData(
    callId: string, from: string, to: string, kind: string,
    isVideoCall: bool, sdp: Option<Sdp>, timestamp: Option<int>)

  /** The message payload the message route hands to the push module. */
  datatype MessageData = MessageData(
    id: string, conversationId: string, from: string, to: string, text: string,
    fileUrl: string, fileName: string, fileType: string, callActivity: bool)

  /** A request to the push module: which builder is called, with what. */
  datatype PushRequest =
    | CallPush(recipient: string, call: CallData, callerName: string)
    | CallEndedPush(recipient: string, callId: string, name: string, timestamp: int)
    | MessagePush(recipient: string, message: MessageData, senderName: string)

  /** How many emits of `log` go to `to` under the name `event`. */
  function CountEmits(log: seq<Emit>, to: Target, event: string): (n: nat)
    ensures n <= |log|
  {
    if |log| == 0 then 0
    else CountEmits(log[..|log| - 1], to, event) +
         (if log[|log| - 1].to == to && log[|log| - 1].event == event then 1 else 0)
  }

  lemma {:induction false} CountEmitsAppend(log: seq<Emit>, more: seq<Emit>, to: Target, event: string)
    ensures CountEmits(log + more, to, event) == CountEmits(log, to, event) + CountEmits(more, to, event)
    decreases |more|
  {
    if |more| == 0 {
      assert log + more == log;
    } else {
      var init := more[..|more| - 1];
      assert (log + more)[..|log + more| - 1] == log + init;
      CountEmitsAppend(log, init, to, event);
    }
  }
}

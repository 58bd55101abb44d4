/**
 * Push payload construction: the generic data payload with its reserved-key
 * renaming, and the message, incoming-call and call-ended payloads. The SDK
 * send is abstracted: a builder returns the message it would hand to it, or
 * `None` when it returns `false` without sending.
 */
module Fcm {
  import opened Wrappers
  import opened Text
  import opened Json
  import opened Events

  /** A JavaScript value as it appears in a payload object. */
  datatype Value = Str(s: string) | Num(n: int) | Bool(b: bool) | Null | Undefined

  /** `String(v)`. */
  function ToStr(v: Value): string
  {
    match v
    case Str(s) => s
    case Num(n) => IntToDecimal(n)
    case Bool(b) => if b then "true" else "false"
    case Null => "null"
    case Undefined => "undefined"
  }

  /** JavaScript truthiness. */
  predicate Truthy(v: Value)
  {
    match v
    case Str(s) => s != ""
    case Num(n) => n != 0
    case Bool(b) => b
    case Null => false
    case Undefined => false
  }

  /** The key a data entry is stored under: `from` and `to` are reserved by FCM. */
  function RenameKey(k: string): string
  {
    if k == "from" then "senderId" else if k == "to" then "recipientId" else k
  }

  /** `Object.entries(data)`, in order. */
  type Entries = seq<(string, Value)>

  /** The value of the last entry stored under `k`, if any. */
  function Lookup(data: Entries, k: string): Option<Value>
  {
    if |data| == 0 then None
    else if data[|data| - 1].0 == k then Some(data[|data| - 1].1)
    else Lookup(data[..|data| - 1], k)
  }

  /** The renamed, stringified entries, a later entry overwriting an earlier one. */
  function Remapped(data: Entries): map<string, string>
  {
    if |data| == 0 then map[]
    else
      var last := data[|data| - 1];
      Remapped(data[..|data| - 1])[RenameKey(last.0) := ToStr(last.1)]
  }

  /** `(data.type || 'message').toString()`. */
  function TypeField(data: Entries): (r: string)
    ensures r != ""
    ensures Lookup(data, "type").None? || !Truthy(Lookup(data, "type").value) ==> r == "message"
    ensures Lookup(data, "type").Some? && Truthy(Lookup(data, "type").value) ==> r == ToStr(Lookup(data, "type").value)
  {
    var t := Lookup(data, "type");
    if t.Some? && Truthy(t.value) then
      assert t.value.Num? ==> |NatToDecimal(if t.value.n < 0 then -t.value.n else t.value.n)| > 0;
      ToStr(t.value)
    else "message"
  }

  /** The data payload `sendFCMNotification` sends for `data`. */
  function FcmData(data: Entries): map<string, string>
  {
    Remapped(data)["type" := TypeField(data)]
  }

  /** The key under which a source key ends up, inverted: the keys that land on `k`. */
  predicate LandsOn(data: Entries, k: string)
  {
    exists i :: 0 <= i < |data| && RenameKey(data[i].0) == k
  }

  /**
   * The remapped payload has a key exactly for each renamed source key, so
   * never `from` or `to`.
   */
  lemma {:induction false} RemappedKeys(data: Entries)
    ensures forall k :: k in Remapped(data) <==> LandsOn(data, k)
    ensures "from" !in Remapped(data) && "to" !in Remapped(data)
  {
    if |data| > 0 {
      var init := data[..|data| - 1];
      RemappedKeys(init);
      forall k
        ensures k in Remapped(data) <==> LandsOn(data, k)
      {
        if LandsOn(init, k) {
          var i :| 0 <= i < |init| && RenameKey(init[i].0) == k;
          assert data[i] == init[i];
        }
        if LandsOn(data, k) && RenameKey(data[|data| - 1].0) != k {
          var i :| 0 <= i < |data| && RenameKey(data[i].0) == k;
          assert init[i] == data[i];
        }
      }
    }
  }

  /**
   * A key other than the four involved in the renaming keeps its stringified
   * value; `senderId` and `recipientId` carry `from` and `to` when the data has
   * no key of that name already.
   */
  lemma {:induction false} RemappedValues(data: Entries)
    ensures forall k :: k != "from" && k != "to" && k != "senderId" && k != "recipientId" ==>
      (k in Remapped(data) <==> Lookup(data, k).Some?) &&
      (k in Remapped(data) ==> Remapped(data)[k] == ToStr(Lookup(data, k).value))
    ensures Lookup(data, "senderId").None? ==>
      ("senderId" in Remapped(data) <==> Lookup(data, "from").Some?) &&
      ("senderId" in Remapped(data) ==> Remapped(data)["senderId"] == ToStr(Lookup(data, "from").value))
    ensures Lookup(data, "recipientId").None? ==>
      ("recipientId" in Remapped(data) <==> Lookup(data, "to").Some?) &&
      ("recipientId" in Remapped(data) ==> Remapped(data)["recipientId"] == ToStr(Lookup(data, "to").value))
  {
    if |data| > 0 {
      RemappedValues(data[..|data| - 1]);
    }
  }

  /** Appending entries overrides the earlier ones key by key. */
  lemma {:induction false} RemappedAppend(a: Entries, b: Entries)
    ensures Remapped(a + b) == Remapped(a) + Remapped(b)
    decreases |b|
  {
    if |b| == 0 {
      assert a + b == a;
    } else {
      var init := b[..|b| - 1];
      assert (a + b)[..|a + b| - 1] == a + init;
      RemappedAppend(a, init);
    }
  }

  /** Whether the payload is for a call: its type is `voice` or `video`. */
  predicate IsCallNotification(fcmData: map<string, string>)
  {
    "type" in fcmData && (fcmData["type"] == "voice" || fcmData["type"] == "video")
  }

  /** The platform options that depend on whether the push is for a call. */
  datatype AlertStyle = AlertStyle(priority: string, visibility: string, vibrate: bool, contentAvailable: bool)

  function Alert(isCall: bool): (r: AlertStyle)
    ensures r.contentAvailable == isCall && r.vibrate == isCall
    ensures r.visibility == (if isCall then "public" else "private")
  {
    if isCall then AlertStyle("high", "public", true, true)
    else AlertStyle("default", "private", false, false)
  }

  datatype Notice = Notice(title: string, body: string)

  /**
   * A message handed to the SDK. `notification` is absent for the data-only
   * call payloads; `alert` is the per-type platform style of the generic path.
   */
  datatype FcmMessage = FcmMessage(
    notification: Option<Notice>, data: map<string, string>, token: string, alert: Option<AlertStyle>)

  /** The token a push can go to: `None` when the user is missing or has no token. */
  function TokenOf(user: Option<Profile>): (r: Option<string>)
    ensures r.Some? <==> user.Some? && user.value.fcmToken != ""
    ensures r.Some? ==> r.value == user.value.fcmToken
  {
    if user.Some? && user.value.fcmToken != "" then Some(user.value.fcmToken) else None
  }

  /**
   * The remapping loop of `sendFCMNotification`: copy every entry under its
   * renamed key, stringified, then set `type`.
   */
  method BuildFcmData(data: Entries) returns (fcmData: map<string, string>)
    ensures fcmData == FcmData(data)
    ensures "type" in fcmData && fcmData["type"] != ""
    ensures "from" !in fcmData && "to" !in fcmData
  {
    fcmData := map[];
    for i := 0 to |data|
      invariant fcmData == Remapped(data[..i])
    {
      assert data[..i + 1][..i] == data[..i];
      fcmData := fcmData[RenameKey(data[i].0) := ToStr(data[i].1)];
    }
    assert data[..|data|] == data;
    RemappedKeys(data);
    fcmData := fcmData["type" := TypeField(data)];
  }

  /**
   * `sendFCMNotification(userId, notification, data)`: nothing is sent when
   * the SDK is not initialised or the user has no token; otherwise the
   * notification with its defaults, the remapped data and the user's token.
   */
  method SendFcmNotification(fcmReady: bool, user: Option<Profile>, notice: Notice, data: Entries)
    returns (sent: Option<FcmMessage>)
    ensures sent.Some? <==> fcmReady && TokenOf(user).Some?
    ensures sent.Some? ==>
      && sent.value.token == user.value.fcmToken
      && sent.value.data == FcmData(data)
      && sent.value.notification == Some(Notice(
           if notice.title != "" then notice.title else "New Message",
           if notice.body != "" then notice.body else "You have a new message"))
      && sent.value.alert == Some(Alert(IsCallNotification(FcmData(data))))
  {
    if !fcmReady {
      return None;
    }
    var token := TokenOf(user);
    if token.None? {
      return None;
    }
    var fcmData := BuildFcmData(data);
    var title := if notice.title != "" then notice.title else "New Message";
    var body := if notice.body != "" then notice.body else "You have a new message";
    sent := Some(FcmMessage(Some(Notice(title, body)), fcmData, token.value, Some(Alert(IsCallNotification(fcmData)))));
  }

  /** `...(v && { k: String(v) })`: the entry only when the value is non-empty. */
  function Optional(k: string, v: string): Entries
  {
    if v != "" then [(k, Str(v))] else []
  }

  /** The entries of the message data object that are always present. */
  function MessageBase(m: MessageData): Entries
  {
    [("type", Str("message")), ("messageId", Str(m.id)), ("conversationId", Str(m.conversationId)),
     ("from", Str(m.from)), ("to", Str(m.to)), ("text", Str(m.text))]
  }

  /** The data object `sendMessageNotification` builds. */
  function MessageEntries(m: MessageData): Entries
  {
    MessageBase(m)
    + Optional("fileUrl", m.fileUrl) + Optional("fileName", m.fileName) + Optional("fileType", m.fileType)
    + (if m.callActivity then [("callActivity", Str("true"))] else [])
  }

  /** The payload with `k` set to `v` when `v` is non-empty. */
  function Put(d: map<string, string>, k: string, v: string): map<string, string>
  {
    if v != "" then d[k := v] else d
  }

  /** One optional entry at the end of the data updates its key only when present. */
  lemma RemappedOptional(a: Entries, k: string, v: string)
    requires RenameKey(k) == k
    ensures Remapped(a + Optional(k, v)) == Put(Remapped(a), k, v)
    ensures k != "type" ==> Lookup(a + Optional(k, v), "type") == Lookup(a, "type")
  {
    if v == "" {
      assert a + Optional(k, v) == a;
    } else {
      assert (a + Optional(k, v))[..|a|] == a;
    }
  }

  /** The data of a message push before `type` is set, key by key. */
  lemma {:induction false} MessageRemapped(m: MessageData)
    ensures Remapped(MessageEntries(m)) ==
      Put(Put(Put(Put(map["type" := "message", "messageId" := m.id, "conversationId" := m.conversationId,
                          "senderId" := m.from, "recipientId" := m.to, "text" := m.text],
                      "fileUrl", m.fileUrl), "fileName", m.fileName), "fileType", m.fileType),
          "callActivity", if m.callActivity then "true" else "")
    ensures Lookup(MessageEntries(m), "type") == Some(Str("message"))
  {
    var base := MessageBase(m);
    var e0, e1, e2 := ("type", Str("message")), ("messageId", Str(m.id)), ("conversationId", Str(m.conversationId));
    var e3, e4 := ("from", Str(m.from)), ("to", Str(m.to));
    assert base[..5] == [e0, e1, e2, e3, e4];
    assert base[..5][..4] == [e0, e1, e2, e3];
    assert base[..5][..4][..3] == [e0, e1, e2];
    assert base[..5][..4][..3][..2] == [e0, e1];
    assert base[..5][..4][..3][..2][..1] == [e0];
    assert [e0][..0] == [];
    assert Remapped(base) == map["type" := "message", "messageId" := m.id, "conversationId" := m.conversationId,
                                 "senderId" := m.from, "recipientId" := m.to, "text" := m.text] by {
      assert Remapped([e0]) == map["type" := "message"];
      assert Remapped([e0, e1]) == map["type" := "message", "messageId" := m.id];
      assert Remapped([e0, e1, e2]) == Remapped([e0, e1])["conversationId" := m.conversationId];
      assert Remapped([e0, e1, e2, e3]) == Remapped([e0, e1, e2])["senderId" := m.from];
      assert Remapped(base[..5]) == Remapped([e0, e1, e2, e3])["recipientId" := m.to];
    }
    assert Lookup(base, "type") == Some(Str("message")) by {
      assert Lookup([e0], "type") == Some(Str("message"));
      assert Lookup([e0, e1], "type") == Some(Str("message"));
      assert Lookup([e0, e1, e2], "type") == Some(Str("message"));
      assert Lookup([e0, e1, e2, e3], "type") == Some(Str("message"));
      assert Lookup(base[..5], "type") == Some(Str("message"));
    }
    var a1 := base + Optional("fileUrl", m.fileUrl);
    var a2 := a1 + Optional("fileName", m.fileName);
    var a3 := a2 + Optional("fileType", m.fileType);
    RemappedOptional(base, "fileUrl", m.fileUrl);
    RemappedOptional(a1, "fileName", m.fileName);
    RemappedOptional(a2, "fileType", m.fileType);
    RemappedOptional(a3, "callActivity", if m.callActivity then "true" else "");
    assert MessageEntries(m) == a3 + Optional("callActivity", if m.callActivity then "true" else "");
  }

  /** The data map of a message push, key by key. */
  function MessageMap(m: MessageData): map<string, string>
  {
    var base := map["type" := "message", "messageId" := m.id, "conversationId" := m.conversationId,
                    "senderId" := m.from, "recipientId" := m.to, "text" := m.text];
    var r1 := Put(base, "fileUrl", m.fileUrl);
    var r2 := Put(r1, "fileName", m.fileName);
    var r3 := Put(r2, "fileType", m.fileType);
    Put(r3, "callActivity", if m.callActivity then "true" else "")["type" := "message"]
  }

  /** The generic path turns the message entries into the message map. */
  lemma MessageFcmData(m: MessageData)
    ensures FcmData(MessageEntries(m)) == MessageMap(m)
  {
    MessageRemapped(m);
    var e := MessageEntries(m);
    var base := map["type" := "message", "messageId" := m.id, "conversationId" := m.conversationId,
                    "senderId" := m.from, "recipientId" := m.to, "text" := m.text];
    var r1 := Put(base, "fileUrl", m.fileUrl);
    var r2 := Put(r1, "fileName", m.fileName);
    var r3 := Put(r2, "fileType", m.fileType);
    var r4 := Put(r3, "callActivity", if m.callActivity then "true" else "");
    assert Remapped(e) == r4;
    assert TypeField(e) == "message";
  }

  /**
   * The message push: type `message` (so never styled as a call), the message
   * and conversation ids, and sender and recipient under their renamed keys.
   */
  lemma MessagePayload(m: MessageData)
    ensures var d := FcmData(MessageEntries(m));
      && {"type", "messageId", "conversationId", "senderId", "recipientId", "text"} <= d.Keys
      && d["type"] == "message" && !IsCallNotification(d)
      && d["messageId"] == m.id && d["conversationId"] == m.conversationId
      && d["senderId"] == m.from && d["recipientId"] == m.to && d["text"] == m.text
  {
    MessageFcmData(m);
  }

  /** The optional fields of a message push: each present exactly when set, with its value. */
  lemma MessagePayloadOptional(m: MessageData)
    ensures var d := FcmData(MessageEntries(m));
      && ("fileUrl" in d <==> m.fileUrl != "") && ("fileUrl" in d ==> d["fileUrl"] == m.fileUrl)
      && ("fileName" in d <==> m.fileName != "") && ("fileName" in d ==> d["fileName"] == m.fileName)
      && ("fileType" in d <==> m.fileType != "") && ("fileType" in d ==> d["fileType"] == m.fileType)
      && ("callActivity" in d <==> m.callActivity) && ("callActivity" in d ==> d["callActivity"] == "true")
  {
    MessageFcmData(m);
  }

  /** A message push carries no key beyond the message fields and `type`. */
  lemma MessagePayloadKeys(m: MessageData)
    ensures FcmData(MessageEntries(m)).Keys <= {"type", "messageId", "conversationId", "senderId", "recipientId",
                                                "text", "fileUrl", "fileName", "fileType", "callActivity"}
  {
    MessageFcmData(m);
  }

  /**
   * `sendMessageNotification`: title is the sender's name, body the text,
   * each with its default.
   */
  method SendMessageNotification(fcmReady: bool, user: Option<Profile>, m: MessageData, senderName: string)
    returns (sent: Option<FcmMessage>)
    ensures sent.Some? <==> fcmReady && TokenOf(user).Some?
    ensures sent.Some? ==>
      && sent.value.token == user.value.fcmToken
      && sent.value.data == FcmData(MessageEntries(m))
      && sent.value.notification == Some(Notice(
           if senderName != "" then senderName else "New Message",
           if m.text != "" then m.text else "You have a new message"))
      && sent.value.alert == Some(Alert(false))
  {
    var title := if senderName != "" then senderName else "New Message";
    var body := if m.text != "" then m.text else "You have a new message";
    MessagePayload(m);
    sent := SendFcmNotification(fcmReady, user, Notice(title, body), MessageEntries(m));
  }

  /** `kind === 'video' || isVideoCall === true ? 'video' : 'voice'`. */
  function CallType(kind: string, isVideoCall: bool): string
  {
    if kind == "video" || isVideoCall then "video" else "voice"
  }

  /** `JSON.stringify` of the SDP object. */
  function SdpJson(sdp: Sdp): string
  {
    "{\"type\":" + Quote(sdp.kind) + ",\"sdp\":" + Quote(sdp.text) + "}"
  }

  /** `text` with `prefix` removed from its front, when it starts with it. */
  function After(prefix: string, text: string): Option<string>
  {
    if |prefix| <= |text| && text[..|prefix|] == prefix then Some(text[|prefix|..]) else None
  }

  /**
   * `JSON.parse` of the SDP field as the app reads it back: an object with
   * `type` and then `sdp`, both strings, written without spaces.
   */
  function ParseSdpJson(t: string): Option<Sdp>
  {
    var r0 := After("{\"type\":", t);
    if r0.None? then None
    else
      var kind := ReadQuoted(r0.value);
      if kind.None? then None
      else
        var r1 := After(",\"sdp\":", kind.value.1);
        if r1.None? then None
        else
          var text := ReadQuoted(r1.value);
          if text.None? || text.value.1 != "}" then None
          else Some(Sdp(kind.value.0, text.value.0))
  }

  /** The SDP field of a call push decodes to the SDP that was offered. */
  lemma SdpJsonRoundTrip(sdp: Sdp)
    ensures ParseSdpJson(SdpJson(sdp)) == Some(sdp)
  {
    var p0, p1 := "{\"type\":", ",\"sdp\":";
    var tail := p1 + (Quote(sdp.text) + "}");
    var t := SdpJson(sdp);
    assert t == p0 + (Quote(sdp.kind) + tail);
    assert t[..|p0|] == p0 && t[|p0|..] == Quote(sdp.kind) + tail;
    QuoteRoundTrip(sdp.kind, tail);
    assert tail[..|p1|] == p1 && tail[|p1|..] == Quote(sdp.text) + "}";
    QuoteRoundTrip(sdp.text, "}");
  }

  /** The data-only payload of an incoming-call push. */
  function CallPayload(call: CallData, callerName: string, caller: Option<Profile>, now: int): map<string, string>
  {
    var callType := CallType(call.kind, call.isVideoCall);
    var avatar := if caller.Some? then caller.value.avatarUrl else "";
    map[
      "type" := "CALL",
      "call_id" := call.callId,
      "caller_name" := if callerName != "" then callerName else "Unknown Caller",
      "avatar" := avatar,
      "callerId" := call.from,
      "recipientId" := call.to,
      "isVideoCall" := if call.isVideoCall || callType == "video" then "true" else "false",
      "kind" := if call.kind != "" then call.kind else callType,
      "timestamp" := IntToDecimal(TimeOr(call.timestamp, now))
    ] + (if call.sdp.Some? then map["sdp" := SdpJson(call.sdp.value)] else map[])
  }

  /**
   * `sendCallNotification`: a data-only message (no notification key) to the
   * recipient's token, or nothing when the SDK is not initialised or the
   * recipient is missing or has no token.
   */
  function CallNotification(fcmReady: bool, user: Option<Profile>, call: CallData, callerName: string,
                            caller: Option<Profile>, now: int): (r: Option<FcmMessage>)
    ensures r.Some? <==> fcmReady && TokenOf(user).Some?
    ensures r.Some? ==> r.value.notification.None? && r.value.alert.None? && r.value.token == user.value.fcmToken
  {
    if fcmReady && TokenOf(user).Some? then
      Some(FcmMessage(None, CallPayload(call, callerName, caller, now), user.value.fcmToken, None))
    else None
  }

  /** The incoming-call payload has the fixed keys, and `sdp` exactly when an SDP was offered. */
  lemma CallPayloadKeys(call: CallData, callerName: string, caller: Option<Profile>, now: int)
    ensures CallPayload(call, callerName, caller, now).Keys ==
      {"type", "call_id", "caller_name", "avatar", "callerId", "recipientId", "isVideoCall", "kind", "timestamp"}
      + (if call.sdp.Some? then {"sdp"} else {})
  {
  }

  /**
   * The incoming-call payload's fields: type `CALL` (so not a `voice`/`video`
   * notification), the caller name or its default, and the call, caller and
   * recipient ids.
   */
  lemma CallPayloadFields(call: CallData, callerName: string, caller: Option<Profile>, now: int)
    ensures var d := CallPayload(call, callerName, caller, now);
      && d["type"] == "CALL" && !IsCallNotification(d)
      && d["caller_name"] == (if callerName != "" then callerName else "Unknown Caller")
      && d["callerId"] == call.from && d["recipientId"] == call.to && d["call_id"] == call.callId
  {
  }

  /** The video flag and kind of an incoming-call payload agree with the call type. */
  lemma CallPayloadVideo(call: CallData, callerName: string, caller: Option<Profile>, now: int)
    ensures var d := CallPayload(call, callerName, caller, now);
      && (d["isVideoCall"] == "true" <==> call.kind == "video" || call.isVideoCall)
      && (d["kind"] == "video" ==> d["isVideoCall"] == "true")
      && (call.kind == "" ==> (d["kind"] == "video" <==> d["isVideoCall"] == "true"))
  {
  }

  /**
   * The timestamp of an incoming-call payload reads back as the supplied
   * time, or `now` when none (or a falsy 0) was supplied.
   */
  lemma CallPayloadTimestamp(call: CallData, callerName: string, caller: Option<Profile>, now: int)
    ensures var d := CallPayload(call, callerName, caller, now);
      && ParseDecimal(d["timestamp"]) == Some(TimeOr(call.timestamp, now))
      && (call.timestamp.Some? && call.timestamp.value != 0 ==> ParseDecimal(d["timestamp"]) == call.timestamp)
      && (call.timestamp.None? ==> ParseDecimal(d["timestamp"]) == Some(now))
  {
    var d := CallPayload(call, callerName, caller, now);
    assert d["timestamp"] == IntToDecimal(TimeOr(call.timestamp, now));
    DecimalRoundTrip(TimeOr(call.timestamp, now));
  }

  /**
   * An incoming-call payload carries an `sdp` field exactly when an SDP was
   * offered, holding its JSON text, which decodes back to the offered SDP.
   */
  lemma CallPayloadSdp(call: CallData, callerName: string, caller: Option<Profile>, now: int)
    ensures var d := CallPayload(call, callerName, caller, now);
      && ("sdp" in d <==> call.sdp.Some?)
      && (call.sdp.Some? ==> d["sdp"] == SdpJson(call.sdp.value) && ParseSdpJson(d["sdp"]) == call.sdp)
  {
    if call.sdp.Some? {
      SdpJsonRoundTrip(call.sdp.value);
    }
  }

  /** The data-only payload of a call-ended push. */
  function CancelPayload(callId: string, callerName: string, timestamp: int, now: int): map<string, string>
  {
    map[
      "type" := "CANCEL",
      "call_id" := callId,
      "caller_name" := if callerName != "" then callerName else "Unknown Caller",
      "action" := "dismiss",
      "timestamp" := IntToDecimal(TimeOr(Some(timestamp), now)),
      "reason" := "caller_hung_up"
    ]
  }

  /** `sendCallEndedNotification`: data-only, or nothing without SDK or token. */
  function CallEndedNotification(fcmReady: bool, user: Option<Profile>, callId: string, callerName: string,
                                 timestamp: int, now: int): (r: Option<FcmMessage>)
    ensures r.Some? <==> fcmReady && TokenOf(user).Some?
    ensures r.Some? ==> r.value.notification.None? && r.value.alert.None? && r.value.token == user.value.fcmToken
  {
    if fcmReady && TokenOf(user).Some? then
      Some(FcmMessage(None, CancelPayload(callId, callerName, timestamp, now), user.value.fcmToken, None))
    else None
  }

  /**
   * The call-ended payload: type `CANCEL`, action `dismiss`, reason
   * `caller_hung_up` whoever ended the call, and a timestamp that reads back
   * as the supplied one (or `now` when it is 0).
   */
  lemma CancelPayloadFacts(callId: string, callerName: string, timestamp: int, now: int)
    ensures var d := CancelPayload(callId, callerName, timestamp, now);
      && d.Keys == {"type", "call_id", "caller_name", "action", "timestamp", "reason"}
      && d["type"] == "CANCEL" && d["action"] == "dismiss" && d["reason"] == "caller_hung_up"
      && d["call_id"] == callId
      && d["caller_name"] == (if callerName != "" then callerName else "Unknown Caller")
      && ParseDecimal(d["timestamp"]) == Some(if timestamp != 0 then timestamp else now)
  {
    DecimalRoundTrip(TimeOr(Some(timestamp), now));
  }
}

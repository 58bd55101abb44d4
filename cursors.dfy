/**
 * Delivery and read cursors: per conversation, the newest message timestamp
 * delivered to and read by each participant, advanced only with `$max`; the
 * `delivered` and `read_up_to` handlers and the reconnect catch-up.
 */
module Cursors {
  import opened Wrappers
  import opened Events

  /** The part of a stored conversation the cursors live in. */
  datatype Conversation = Conversation(
    participants: seq<string>, deliveredUpTo: map<string, int>, readUpTo: map<string, int>)

  /** A stored message, as far as delivery is concerned. */
  datatype Message = Message(id: string, from: string, to: string, conversation: Option<string>, createdAt: int)

  /**
   * One row of the catch-up aggregation: the conversation (`_id`), and the id,
   * time and sender of its newest message to the reconnecting user.
   */
  datatype Group = Group(conversation: Option<string>, lastId: string, lastAt: Option<int>, from: string)

  /** `$max` of `ts` into the cursor of `who`. */
  function Advance(cursor: map<string, int>, who: string, ts: int): (r: map<string, int>)
    ensures r.Keys == cursor.Keys + {who}
    ensures r[who] >= ts && (who in cursor ==> r[who] >= cursor[who])
    ensures r[who] == ts || (who in cursor && r[who] == cursor[who])
    ensures forall u :: u in cursor && u != who ==> r[u] == cursor[u]
  {
    if who in cursor && cursor[who] >= ts then cursor else cursor[who := ts]
  }

  /** No cursor of `before` is missing from or ahead of `after`. */
  ghost predicate NotBehind(before: map<string, int>, after: map<string, int>)
  {
    forall u :: u in before ==> u in after && after[u] >= before[u]
  }

  /** The cursor after `$max`-updates with each timestamp of `ts` in turn. */
  function Replay(cursor: map<string, int>, who: string, ts: seq<int>): map<string, int>
    decreases |ts|
  {
    if |ts| == 0 then cursor else Replay(Advance(cursor, who, ts[0]), who, ts[1..])
  }

  function MaxOf(ts: seq<int>): int
    requires |ts| > 0
  {
    if |ts| == 1 then ts[0] else if ts[0] >= MaxOf(ts[1..]) then ts[0] else MaxOf(ts[1..])
  }

  /**
   * After any sequence of updates the cursor holds the largest timestamp ever
   * submitted (including the starting value), whatever their order.
   */
  lemma {:induction false} CursorIsMaximum(cursor: map<string, int>, who: string, ts: seq<int>)
    requires |ts| > 0
    decreases |ts|
    ensures var r := Replay(cursor, who, ts);
      && who in r
      && r[who] == (if who in cursor && cursor[who] > MaxOf(ts) then cursor[who] else MaxOf(ts))
      && NotBehind(cursor, r)
  {
    var c := Advance(cursor, who, ts[0]);
    if |ts| > 1 {
      CursorIsMaximum(c, who, ts[1..]);
    }
  }

  /** `$max` into the delivered cursor of `who` in conversation `cid`, if it is stored. */
  function MaxDelivered(convs: map<string, Conversation>, cid: string, who: string, ts: int)
    : (r: map<string, Conversation>)
    ensures r.Keys == convs.Keys
    ensures forall c :: c in convs && c != cid ==> r[c] == convs[c]
    ensures cid in convs ==> r[cid] == convs[cid].(deliveredUpTo := Advance(convs[cid].deliveredUpTo, who, ts))
  {
    if cid in convs then convs[cid := convs[cid].(deliveredUpTo := Advance(convs[cid].deliveredUpTo, who, ts))]
    else convs
  }

  /** `$max` into the read cursor of `who` in conversation `cid`, if it is stored. */
  function MaxRead(convs: map<string, Conversation>, cid: string, who: string, ts: int)
    : (r: map<string, Conversation>)
    ensures r.Keys == convs.Keys
    ensures forall c :: c in convs && c != cid ==> r[c] == convs[c]
    ensures cid in convs ==> r[cid] == convs[cid].(readUpTo := Advance(convs[cid].readUpTo, who, ts))
  {
    if cid in convs then convs[cid := convs[cid].(readUpTo := Advance(convs[cid].readUpTo, who, ts))]
    else convs
  }

  /** Every cursor of every stored conversation is kept or moved forward. */
  ghost predicate Forward(before: map<string, Conversation>, after: map<string, Conversation>)
  {
    && after.Keys == before.Keys
    && forall c :: c in before ==>
         && after[c].participants == before[c].participants
         && NotBehind(before[c].deliveredUpTo, after[c].deliveredUpTo)
         && NotBehind(before[c].readUpTo, after[c].readUpTo)
  }

  /** The effect of the `delivered` handler on the store: the recipient's delivered cursor. */
  function DeliverTo(convs: map<string, Conversation>, m: Message): (r: map<string, Conversation>)
    ensures Forward(convs, r)
  {
    if m.conversation.Some? then MaxDelivered(convs, m.conversation.value, m.to, m.createdAt) else convs
  }

  /** The notice the `delivered` handler sends the sender of the message stored under `id`. */
  function DeliveredNotice(id: string, m: Message): Emit
  {
    Emit(Room(m.from), "delivered", false,
         DeliveredInfo(id, m.conversation.GetOr(""), m.to, m.createdAt))
  }

  /**
   * A delivery signal older than one already applied changes nothing: after
   * `t1 < t2` and then `t1` again, the cursor holds `t2`.
   */
  lemma LateDeliveryIsNoOp(convs: map<string, Conversation>, m1: Message, m2: Message)
    requires m1.conversation == m2.conversation && m1.to == m2.to
    requires m1.createdAt < m2.createdAt
    ensures var after := DeliverTo(DeliverTo(convs, m1), m2);
      && DeliverTo(after, m1) == after
      && (m2.conversation.Some? && m2.conversation.value in convs ==>
            after[m2.conversation.value].deliveredUpTo[m2.to] >= m2.createdAt)
  {
  }

  /** The notices `read_up_to` sends: one per participant other than the reader, in order. */
  function ReadNotices(participants: seq<string>, cid: string, reader: string, at: int): seq<Emit>
  {
    if |participants| == 0 then []
    else
      var p := participants[|participants| - 1];
      ReadNotices(participants[..|participants| - 1], cid, reader, at)
      + (if p != reader then [Emit(Room(p), "read_up_to", false, ReadInfo(cid, reader, at))] else [])
  }

  /** A read notice goes to exactly the participants other than the reader. */
  lemma {:induction false} ReadNoticesExact(participants: seq<string>, cid: string, reader: string, at: int)
    ensures forall e :: e in ReadNotices(participants, cid, reader, at) <==>
      exists p :: p in participants && p != reader && e == Emit(Room(p), "read_up_to", false, ReadInfo(cid, reader, at))
  {
    if |participants| > 0 {
      var init := participants[..|participants| - 1];
      ReadNoticesExact(init, cid, reader, at);
      assert participants == init + [participants[|participants| - 1]];
    }
  }

  /** The delivered cursor of `uid` in `cid` before catch-up, as the handler reads it. */
  function Prior(convs: map<string, Conversation>, uid: string, cid: string): Option<int>
  {
    if cid in convs && uid in convs[cid].deliveredUpTo then Some(convs[cid].deliveredUpTo[uid]) else None
  }

  /** A group the loop does not skip: it has a conversation id and a time. */
  predicate Usable(g: Group)
  {
    g.conversation.Some? && g.conversation.value != "" && g.lastAt.Some?
  }

  /** `!prev || lastAt > prev`: no stored cursor, or the newest message is strictly newer. */
  predicate Selected(g: Group, snapshot: map<string, Conversation>, uid: string)
  {
    && Usable(g)
    && var prev := Prior(snapshot, uid, g.conversation.value);
       prev.None? || g.lastAt.value > prev.value
  }

  function CatchupNotice(g: Group, uid: string): Emit
    requires Usable(g)
  {
    Emit(Room(g.from), "delivered", false, DeliveredInfo(g.lastId, g.conversation.value, uid, g.lastAt.value))
  }

  /** The notices catch-up sends, one per selected group, in order. */
  function CatchupNotices(groups: seq<Group>, snapshot: map<string, Conversation>, uid: string): seq<Emit>
  {
    if |groups| == 0 then []
    else
      var g := groups[|groups| - 1];
      CatchupNotices(groups[..|groups| - 1], snapshot, uid)
      + (if Selected(g, snapshot, uid) then [CatchupNotice(g, uid)] else [])
  }

  /** The store after catch-up: a `$max` for each selected group. */
  function CatchupStore(convs: map<string, Conversation>, groups: seq<Group>,
                        snapshot: map<string, Conversation>, uid: string): (r: map<string, Conversation>)
    ensures r.Keys == convs.Keys
  {
    if |groups| == 0 then convs
    else
      var g := groups[|groups| - 1];
      var before := CatchupStore(convs, groups[..|groups| - 1], snapshot, uid);
      if Selected(g, snapshot, uid) then MaxDelivered(before, g.conversation.value, uid, g.lastAt.value)
      else before
  }

  /** Catch-up only moves cursors forward. */
  lemma {:induction false} CatchupForward(convs: map<string, Conversation>, groups: seq<Group>,
                                          snapshot: map<string, Conversation>, uid: string)
    ensures Forward(convs, CatchupStore(convs, groups, snapshot, uid))
  {
    if |groups| > 0 {
      CatchupForward(convs, groups[..|groups| - 1], snapshot, uid);
    }
  }

  /** A notice goes out exactly for each selected group. */
  lemma {:induction false} CatchupNoticesExact(groups: seq<Group>, snapshot: map<string, Conversation>, uid: string)
    ensures forall e :: e in CatchupNotices(groups, snapshot, uid) <==>
      exists g :: g in groups && Selected(g, snapshot, uid) && e == CatchupNotice(g, uid)
  {
    if |groups| > 0 {
      var init := groups[..|groups| - 1];
      CatchupNoticesExact(init, snapshot, uid);
      assert groups == init + [groups[|groups| - 1]];
    }
  }

  /** A delivered cursor already at or past `t` stays so through catch-up. */
  lemma {:induction false} CatchupKeeps(convs: map<string, Conversation>, groups: seq<Group>,
                                        snapshot: map<string, Conversation>, uid: string, cid: string, t: int)
    requires cid in convs && uid in convs[cid].deliveredUpTo && convs[cid].deliveredUpTo[uid] >= t
    ensures var r := CatchupStore(convs, groups, snapshot, uid);
      uid in r[cid].deliveredUpTo && r[cid].deliveredUpTo[uid] >= t
  {
    if |groups| > 0 {
      CatchupKeeps(convs, groups[..|groups| - 1], snapshot, uid, cid, t);
    }
  }

  /**
   * After catch-up against the store itself, the reconnecting user's cursor in
   * every stored conversation of a usable group is at least that group's time.
   */
  lemma {:induction false} CatchupCovers(convs: map<string, Conversation>, groups: seq<Group>, uid: string, i: nat)
    requires i < |groups| && Usable(groups[i]) && groups[i].conversation.value in convs
    ensures var after := CatchupStore(convs, groups, convs, uid);
      var cid := groups[i].conversation.value;
      uid in after[cid].deliveredUpTo && after[cid].deliveredUpTo[uid] >= groups[i].lastAt.value
  {
    var n := |groups| - 1;
    var init := groups[..n];
    var cid := groups[i].conversation.value;
    var t := groups[i].lastAt.value;
    var before := CatchupStore(convs, init, convs, uid);
    if i < n {
      assert init[i] == groups[i];
      CatchupCovers(convs, init, uid, i);
      assert uid in before[cid].deliveredUpTo && before[cid].deliveredUpTo[uid] >= t;
    } else if !Selected(groups[i], convs, uid) {
      CatchupKeeps(convs, init, convs, uid, cid, t);
    }
  }

  /**
   * Running catch-up again with the same groups notifies no one about a
   * stored conversation: each such group is no longer newer than the cursor.
   */
  lemma CatchupIdempotent(convs: map<string, Conversation>, groups: seq<Group>, uid: string)
    ensures var after := CatchupStore(convs, groups, convs, uid);
      forall g :: g in groups && Selected(g, after, uid) ==> g.conversation.value !in convs
  {
    var after := CatchupStore(convs, groups, convs, uid);
    forall g | g in groups && Selected(g, after, uid)
      ensures g.conversation.value !in convs
    {
      var i :| 0 <= i < |groups| && groups[i] == g;
      var cid := g.conversation.value;
      if cid in convs {
        CatchupCovers(convs, groups, uid, i);
      }
    }
  }

  class CursorStore {
    /** The stored conversations, by id. */
    var conversations: map<string, Conversation>
    /** The stored messages, by id. */
    var messages: map<string, Message>
    /** Every emit made so far, oldest first. */
    var log: seq<Emit>

    constructor (conversations: map<string, Conversation>, messages: map<string, Message>)
      ensures this.conversations == conversations && this.messages == messages && log == []
    {
      this.conversations, this.messages, log := conversations, messages, [];
    }

    /**
     * `delivered`: advance the recipient's delivered cursor to the message's
     * time and notify the sender; the notice goes out even when the cursor did
     * not move.
     */
    method Delivered(messageId: string)
      modifies this
      ensures messages == old(messages)
      ensures messageId == "" || messageId !in old(messages) ==> unchanged(this)
      ensures messageId != "" && messageId in old(messages) ==>
        var m := old(messages)[messageId];
        && conversations == DeliverTo(old(conversations), m)
        && log == old(log) + [DeliveredNotice(messageId, m)]
      ensures Forward(old(conversations), conversations)
    {
      if messageId == "" || messageId !in messages {
        return;
      }
      var m := messages[messageId];
      if m.conversation.Some? {
        conversations := MaxDelivered(conversations, m.conversation.value, m.to, m.createdAt);
      }
      log := log + [DeliveredNotice(messageId, m)];
    }

    /**
     * `read_up_to`: advance `reader`'s read cursor to `at` (or `now` when the
     * client sent no time or a falsy 0) and notify every other participant.
     */
    method ReadUpTo(cid: string, reader: string, at: Option<int>, now: int)
      modifies this
      ensures messages == old(messages)
      ensures cid == "" || reader == "" ==> unchanged(this)
      ensures cid != "" && reader != "" ==>
        var ts := TimeOr(at, now);
        && conversations == MaxRead(old(conversations), cid, reader, ts)
        && log == old(log) + (if cid in old(conversations)
                              then ReadNotices(old(conversations)[cid].participants, cid, reader, ts)
                              else [])
      ensures Forward(old(conversations), conversations)
    {
      if cid == "" || reader == "" {
        return;
      }
      var ts := TimeOr(at, now);
      conversations := MaxRead(conversations, cid, reader, ts);
      if cid !in conversations {
        return;
      }
      var participants := conversations[cid].participants;
      var log0, store := log, conversations;
      var i := 0;
      while i < |participants|
        invariant 0 <= i <= |participants|
        invariant conversations == store && messages == old(messages)
        invariant log == log0 + ReadNotices(participants[..i], cid, reader, ts)
      {
        var p := participants[i];
        if p != reader {
          log := log + [Emit(Room(p), "read_up_to", false, ReadInfo(cid, reader, ts))];
        }
        assert participants[..i + 1][..i] == participants[..i];
        i := i + 1;
      }
      assert participants[..i] == participants;
    }

    /**
     * `catchupDelivered(uid)` on reconnect, given the aggregation's `groups`:
     * each usable group whose newest message is newer than the stored cursor
     * (read once, before the loop) is persisted with `$max` and announced to
     * its sender.
     */
    method CatchupDelivered(uid: string, groups: seq<Group>)
      modifies this
      ensures messages == old(messages)
      ensures conversations == CatchupStore(old(conversations), groups, old(conversations), uid)
      ensures log == old(log) + CatchupNotices(groups, old(conversations), uid)
    {
      if |groups| == 0 {
        return;
      }
      var snapshot := conversations;
      var i := 0;
      while i < |groups|
        invariant 0 <= i <= |groups|
        invariant messages == old(messages)
        invariant conversations == CatchupStore(snapshot, groups[..i], snapshot, uid)
        invariant log == old(log) + CatchupNotices(groups[..i], snapshot, uid)
      {
        var g := groups[i];
        assert groups[..i + 1][..i] == groups[..i];
        if Usable(g) {
          var cid := g.conversation.value;
          var prev := Prior(snapshot, uid, cid);
          var lastAt := g.lastAt.value;
          if prev.None? || lastAt > prev.value {
            conversations := MaxDelivered(conversations, cid, uid, lastAt);
            log := log + [CatchupNotice(g, uid)];
          }
        }
        i := i + 1;
      }
      assert groups[..i] == groups;
    }
  }
}

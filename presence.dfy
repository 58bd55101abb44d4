/**
 * Connection counting and presence: how many live sockets each user has,
 * when their presence last changed, the `presence` broadcasts, and the
 * `/presence` query.
 */
module Presence {
  import opened Wrappers
  import opened Events

  /** A user's connection count after one event and the presence flag broadcast, if any. */
  datatype StepResult = StepResult(count: nat, announce: Option<bool>)

  /**
   * One `connection` (`connect == true`) or `disconnect` on a user whose
   * count is `count`. A connection broadcasts "online" exactly when the count
   * becomes 1; a disconnect treats a missing count as 1, and broadcasts
   * "offline" exactly when nothing is left.
   */
  function Step(count: nat, connect: bool): (r: StepResult)
    ensures connect ==> r.count == count + 1 && (r.announce.Some? <==> count == 0)
    ensures !connect ==> r.count == if count > 0 then count - 1 else 0
    ensures !connect ==> (r.announce.Some? <==> r.count == 0)
    ensures r.announce.Some? ==> r.announce.value == connect
  {
    if connect then
      var c := count + 1;
      StepResult(c, if c == 1 then Some(true) else None)
    else
      var left := (if count > 0 then count else 1) - 1;
      if left <= 0 then StepResult(0, Some(false)) else StepResult(left, None)
  }

  /** The count after a sequence of connects and disconnects. */
  function Run(count: nat, ops: seq<bool>): nat
    decreases |ops|
  {
    if |ops| == 0 then count else Run(Step(count, ops[0]).count, ops[1..])
  }

  /** The presence flags broadcast along a sequence of connects and disconnects. */
  function Announcements(count: nat, ops: seq<bool>): seq<bool>
    decreases |ops|
  {
    if |ops| == 0 then []
    else
      var r := Step(count, ops[0]);
      (if r.announce.Some? then [r.announce.value] else []) + Announcements(r.count, ops[1..])
  }

  /** Every disconnect belongs to a socket that connected before it. */
  predicate Balanced(count: nat, ops: seq<bool>)
    decreases |ops|
  {
    |ops| == 0 || ((ops[0] || count > 0) && Balanced(Step(count, ops[0]).count, ops[1..]))
  }

  /**
   * Along any balanced sequence of connects and disconnects, the broadcasts
   * alternate online/offline, the first one is a crossing from the starting
   * count, the last one agrees with the final count, and without any
   * broadcast the user stays on the same side of zero.
   */
  lemma {:induction false} PresenceAlternates(count: nat, ops: seq<bool>)
    requires Balanced(count, ops)
    ensures var a := Announcements(count, ops);
      && (forall i :: 0 <= i < |a| - 1 ==> a[i] != a[i + 1])
      && (|a| > 0 ==> a[0] == (count == 0) && a[|a| - 1] == (Run(count, ops) > 0))
      && (|a| == 0 ==> (Run(count, ops) > 0) == (count > 0))
    decreases |ops|
  {
    if |ops| > 0 {
      var r := Step(count, ops[0]);
      PresenceAlternates(r.count, ops[1..]);
      var rest := Announcements(r.count, ops[1..]);
      if r.announce.Some? {
        var a := [r.announce.value] + rest;
        assert Announcements(count, ops) == a;
        forall i | 0 <= i < |a| - 1
          ensures a[i] != a[i + 1]
        {
          if i > 0 {
            assert a[i] == rest[i - 1] && a[i + 1] == rest[i];
          }
        }
      }
    }
  }

  /** The flag `/presence` reports for a count: `(onlineCounts.get(id) || 0) > 0`. */
  datatype PresenceEntry = PresenceEntry(online: bool, at: Option<int>)

  /** The answer of `/presence`, in its three shapes. */
  datatype PresenceReport =
    | OnlineIds(ids: set<string>)
    | Flags(flags: map<string, bool>)
    | Entries(entries: map<string, PresenceEntry>)

  /** `raw.split(',')`. */
  function Split(raw: string): (r: seq<string>)
    ensures |r| > 0
    ensures forall i :: 0 <= i < |r| ==> ',' !in r[i]
  {
    if |raw| == 0 then [""]
    else
      var rest := Split(raw[1..]);
      if raw[0] == ',' then [""] + rest else [[raw[0]] + rest[0]] + rest[1..]
  }

  /** `.filter(Boolean)` on strings. */
  function NonEmpty(xs: seq<string>): (r: seq<string>)
    ensures forall i :: 0 <= i < |r| ==> r[i] != "" && r[i] in xs
    ensures forall x :: x in xs && x != "" ==> x in r
  {
    if |xs| == 0 then [] else (if xs[0] != "" then [xs[0]] else []) + NonEmpty(xs[1..])
  }

  /** The `ids` query parameter: its comma-separated, non-empty fields. */
  function ParseIds(raw: string): seq<string>
  {
    NonEmpty(Split(raw))
  }

  /** `xs.join(',')`, the way a client builds the `ids` parameter. */
  function Join(xs: seq<string>): string
    requires |xs| > 0
  {
    if |xs| == 1 then xs[0] else xs[0] + "," + Join(xs[1..])
  }

  lemma {:induction false} SplitPrefix(x: string, rest: string)
    requires ',' !in x
    ensures Split(x + rest) == [x + Split(rest)[0]] + Split(rest)[1..]
  {
    if |x| > 0 {
      assert (x + rest)[1..] == x[1..] + rest;
      SplitPrefix(x[1..], rest);
      assert [x[0]] + (x[1..] + Split(rest)[0]) == x + Split(rest)[0];
    } else {
      var s := Split(rest);
      assert x + rest == rest && x + s[0] == s[0];
      assert s == [s[0]] + s[1..];
    }
  }

  /** Splitting a joined list of comma-free ids gives the list back. */
  lemma {:induction false} SplitJoin(xs: seq<string>)
    requires |xs| > 0
    requires forall i :: 0 <= i < |xs| ==> ',' !in xs[i]
    ensures Split(Join(xs)) == xs
  {
    if |xs| == 1 {
      SplitPrefix(xs[0], "");
      assert xs[0] + "" == xs[0];
      assert Split(xs[0] + "") == [xs[0]];
    } else {
      SplitJoin(xs[1..]);
      var tail := "," + Join(xs[1..]);
      assert Join(xs) == xs[0] + tail;
      SplitPrefix(xs[0], tail);
      assert tail[1..] == Join(xs[1..]);
      assert Split(tail) == [""] + xs[1..];
      assert xs[0] + "" == xs[0];
      assert xs == [xs[0]] + xs[1..];
    }
  }

  lemma {:induction false} NonEmptyKeeps(xs: seq<string>)
    requires forall i :: 0 <= i < |xs| ==> xs[i] != ""
    ensures NonEmpty(xs) == xs
  {
    if |xs| > 0 {
      NonEmptyKeeps(xs[1..]);
    }
  }

  /** A client's list of non-empty, comma-free ids arrives intact. */
  lemma ParseIdsRoundTrip(xs: seq<string>)
    requires |xs| > 0
    requires forall i :: 0 <= i < |xs| ==> xs[i] != "" && ',' !in xs[i]
    ensures ParseIds(Join(xs)) == xs
  {
    SplitJoin(xs);
    NonEmptyKeeps(xs);
  }

  /** `verbose === '1' || verbose === 'true'`. */
  predicate IsVerbose(raw: string)
  {
    raw == "1" || raw == "true"
  }

  /** The broadcast `setOnline` makes. */
  function Announce(uid: string, online: bool, at: int): Emit
  {
    Emit(Everyone, "presence", false, PresenceInfo(uid, online, at))
  }

  class PresenceRegistry {
    /** `onlineCounts`: live sockets per user; only users with at least one are present. */
    var onlineCounts: map<string, nat>
    /** `lastPresenceAt`: when each user's presence last changed. */
    var lastPresenceAt: map<string, int>
    /** Every emit made so far, oldest first. */
    var log: seq<Emit>

    ghost predicate Valid()
      reads this
    {
      && (forall u :: u in onlineCounts ==> onlineCounts[u] > 0)
      && onlineCounts.Keys <= lastPresenceAt.Keys
    }

    constructor ()
      ensures Valid()
      ensures onlineCounts == map[] && lastPresenceAt == map[] && log == []
    {
      onlineCounts, lastPresenceAt, log := map[], map[], [];
    }

    /** `onlineCounts.get(uid) || 0`. */
    function Count(uid: string): nat
      reads this
    {
      if uid in onlineCounts then onlineCounts[uid] else 0
    }

    /** Whether `uid` has a live socket (its room is non-empty). */
    function IsOnline(uid: string): (r: bool)
      reads this
      requires Valid()
      ensures r <==> uid in onlineCounts
    {
      Count(uid) > 0
    }

    /** `setOnline`: remember when presence changed and broadcast it. */
    method SetOnline(uid: string, online: bool, now: int)
      modifies this
      ensures onlineCounts == old(onlineCounts)
      ensures lastPresenceAt == old(lastPresenceAt)[uid := now]
      ensures log == old(log) + [Announce(uid, online, now)]
    {
      lastPresenceAt := lastPresenceAt[uid := now];
      log := log + [Announce(uid, online, now)];
    }

    /** The presence part of the `connection` handler. */
    method Connect(uid: string, now: int)
      requires Valid()
      modifies this
      ensures Valid()
      ensures var r := Step(old(Count(uid)), true);
        && onlineCounts == old(onlineCounts)[uid := r.count]
        && (r.announce.Some? ==> lastPresenceAt == old(lastPresenceAt)[uid := now]
                                 && log == old(log) + [Announce(uid, true, now)])
        && (r.announce.None? ==> lastPresenceAt == old(lastPresenceAt) && log == old(log))
    {
      var c := Count(uid) + 1;
      onlineCounts := onlineCounts[uid := c];
      if c == 1 {
        SetOnline(uid, true, now);
      }
    }

    /** The presence part of the `disconnect` handler. */
    method Disconnect(uid: string, now: int)
      requires Valid()
      modifies this
      ensures Valid()
      ensures var r := Step(old(Count(uid)), false);
        && onlineCounts == (if r.count == 0 then old(onlineCounts) - {uid} else old(onlineCounts)[uid := r.count])
        && (r.announce.Some? ==> lastPresenceAt == old(lastPresenceAt)[uid := now]
                                 && log == old(log) + [Announce(uid, false, now)])
        && (r.announce.None? ==> lastPresenceAt == old(lastPresenceAt) && log == old(log))
    {
      var left := (if uid in onlineCounts then onlineCounts[uid] else 1) - 1;
      if left <= 0 {
        onlineCounts := onlineCounts - {uid};
        SetOnline(uid, false, now);
      } else {
        onlineCounts := onlineCounts[uid := left];
      }
    }

    /**
     * `/presence`: without ids, the online users (or, verbose, every user with
     * a count or a presence record, `at` defaulting to `now`); with ids, each
     * requested id's online flag (or, verbose, flag and last change).
     */
    function Report(idsRaw: string, verboseRaw: string, now: int): (r: PresenceReport)
      reads this
      requires Valid()
      ensures var ids := ParseIds(idsRaw);
        && (ids == [] && !IsVerbose(verboseRaw) ==> r == OnlineIds(onlineCounts.Keys))
        && (ids == [] && IsVerbose(verboseRaw) ==>
              r.Entries? && r.entries.Keys == lastPresenceAt.Keys
              && forall id :: id in r.entries ==>
                   r.entries[id] == PresenceEntry(id in onlineCounts, Some(lastPresenceAt[id])))
        && (ids != [] && !IsVerbose(verboseRaw) ==>
              r.Flags? && (forall id :: id in r.flags <==> id in ids)
              && forall id :: id in r.flags ==> (r.flags[id] <==> id in onlineCounts))
        && (ids != [] && IsVerbose(verboseRaw) ==>
              r.Entries? && (forall id :: id in r.entries <==> id in ids)
              && forall id :: id in r.entries ==>
                   r.entries[id] == PresenceEntry(id in onlineCounts,
                                                  if id in lastPresenceAt then Some(lastPresenceAt[id]) else None))
    {
      var ids := ParseIds(idsRaw);
      if ids == [] then
        if !IsVerbose(verboseRaw) then OnlineIds(onlineCounts.Keys)
        else
          Entries(map id | id in onlineCounts.Keys + lastPresenceAt.Keys ::
                    PresenceEntry(Count(id) > 0,
                                  Some(if id in lastPresenceAt then lastPresenceAt[id] else now)))
      else if !IsVerbose(verboseRaw) then
        Flags(map id | id in ids :: Count(id) > 0)
      else
        Entries(map id | id in ids ::
                  PresenceEntry(Count(id) > 0, if id in lastPresenceAt then Some(lastPresenceAt[id]) else None))
    }
  }
}

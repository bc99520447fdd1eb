/**
 * Presence of the users of one dashboard (src/hooks/useFirebaseSync.jsx): the
 * online-users list derived from the presence records, and the sweep that
 * deletes records not seen for five minutes.
 */
module Presence {
  import opened Wrappers
  import opened Store

  const StaleThresholdMs := 5 * 60 * 1000

  /** One document of the presence sub-collection, by document key. */
  datatype PresenceRecord = PresenceRecord(key: string, userId: string, lastSeen: Option<int>, isOnline: bool)

  predicate Distinct(xs: seq<string>) {
    forall i, j :: 0 <= i < j < |xs| ==> xs[i] != xs[j]
  }

  /** `[...new Set(xs)]`: each element once, at its first occurrence. */
  function Dedup(xs: seq<string>): (r: seq<string>)
    ensures Distinct(r)
    ensures |r| <= |xs|
    ensures forall x :: x in r <==> x in xs
  {
    if xs == [] then []
    else
      var d := Dedup(xs[..|xs| - 1]);
      if xs[|xs| - 1] in xs[..|xs| - 1] then d else d + [xs[|xs| - 1]]
  }

  /** Deduplicating a list without repeats changes nothing. */
  lemma {:induction false} DedupDistinct(xs: seq<string>)
    requires Distinct(xs)
    ensures Dedup(xs) == xs
  {
    if xs != [] {
      var init := xs[..|xs| - 1];
      assert Distinct(init);
      DedupDistinct(init);
      assert xs[|xs| - 1] !in init;
      assert init + [xs[|xs| - 1]] == xs;
    }
  }

  /** Later elements never move earlier ones: the first-occurrence order is kept. */
  lemma {:induction false} DedupPrefix(xs: seq<string>, ys: seq<string>)
    ensures Dedup(xs) <= Dedup(xs + ys)
    decreases |ys|
  {
    if ys == [] {
      assert xs + ys == xs;
    } else {
      var init := ys[..|ys| - 1];
      DedupPrefix(xs, init);
      assert (xs + ys)[..|xs + ys| - 1] == xs + init;
    }
  }

  /** `snapshot.docs.map(doc => doc.data().userId)` over the records with `isOnline == true`. */
  function OnlineUserIds(records: seq<PresenceRecord>): (ids: seq<string>)
    ensures |ids| <= |records|
    ensures forall u :: u in ids <==> exists i :: 0 <= i < |records| && records[i].isOnline && records[i].userId == u
  {
    if records == [] then []
    else
      var init := records[..|records| - 1];
      var last := records[|records| - 1];
      var rest := OnlineUserIds(init);
      assert forall i :: 0 <= i < |init| ==> init[i] == records[i];
      if last.isOnline then rest + [last.userId] else rest
  }

  /** The SET_ACTIVE_USERS payload: every online user once, offline-only users never. */
  function ActiveUsers(records: seq<PresenceRecord>): (users: seq<string>)
    ensures Distinct(users)
    ensures |users| <= |records|
    ensures forall u :: u in users <==> exists i :: 0 <= i < |records| && records[i].isOnline && records[i].userId == u
  {
    Dedup(OnlineUserIds(records))
  }

  /** The online ids of consecutive runs of records are the runs' ids, in record order. */
  lemma {:induction false} OnlineUserIdsAppend(a: seq<PresenceRecord>, b: seq<PresenceRecord>)
    ensures OnlineUserIds(a + b) == OnlineUserIds(a) + OnlineUserIds(b)
    decreases |b|
  {
    if b == [] {
      assert a + b == a;
    } else {
      var init := b[..|b| - 1];
      var last := b[|b| - 1];
      var tail := if last.isOnline then [last.userId] else [];
      OnlineUserIdsAppend(a, init);
      var ab := a + b;
      assert ab[..|ab| - 1] == a + init;
      assert ab[|ab| - 1] == last;
      assert OnlineUserIds(ab) == OnlineUserIds(a + init) + tail;
      assert OnlineUserIds(b) == OnlineUserIds(init) + tail;
      assert OnlineUserIds(a) + OnlineUserIds(init) + tail == OnlineUserIds(a) + (OnlineUserIds(init) + tail);
    }
  }

  /** One record contributes its user id exactly when it is online. */
  lemma OnlineUserIdsSingle(r: PresenceRecord)
    ensures OnlineUserIds([r]) == if r.isOnline then [r.userId] else []
  {
    assert [r][..0] == [];
  }

  /**
   * Active users are listed in the order their first online record appears:
   * a further record never moves or removes the users already listed, and adds
   * its user at the end exactly when it is online and not yet listed.
   */
  lemma ActiveUsersAppend(records: seq<PresenceRecord>, r: PresenceRecord)
    ensures ActiveUsers(records + [r]) ==
              if r.isOnline && r.userId !in ActiveUsers(records) then ActiveUsers(records) + [r.userId]
              else ActiveUsers(records)
  {
    OnlineUserIdsAppend(records, [r]);
    OnlineUserIdsSingle(r);
    var ids := OnlineUserIds(records);
    if r.isOnline {
      var all := ids + [r.userId];
      assert all[..|all| - 1] == ids;
    } else {
      assert OnlineUserIds(records + [r]) == ids;
    }
  }

  /** Records that come later never reorder the users listed from earlier ones. */
  lemma ActiveUsersPrefix(a: seq<PresenceRecord>, b: seq<PresenceRecord>)
    ensures ActiveUsers(a) <= ActiveUsers(a + b)
  {
    OnlineUserIdsAppend(a, b);
    DedupPrefix(OnlineUserIds(a), OnlineUserIds(b));
  }

  /** A presence snapshot dispatches exactly one SET_ACTIVE_USERS. */
  function PresenceAction(records: seq<PresenceRecord>): (a: Action)
    ensures a.SetActiveUsers? && Distinct(a.users)
    ensures forall u :: u in a.users <==> exists i :: 0 <= i < |records| && records[i].isOnline && records[i].userId == u
  {
    SetActiveUsers(ActiveUsers(records))
  }

  /**
   * `now - (lastSeen || epoch) > 5 minutes`: a record without a timestamp
   * counts as last seen at time 0; the online flag plays no part.
   */
  function IsStale(r: PresenceRecord, now: int): (stale: bool)
    ensures r.lastSeen.None? ==> (stale <==> now > StaleThresholdMs)
    ensures r.lastSeen.Some? ==> (stale <==> r.lastSeen.value < now - StaleThresholdMs)
  {
    now - r.lastSeen.GetOr(0) > StaleThresholdMs
  }

  /** The keys the sweep deletes, in record order. */
  function StaleKeys(records: seq<PresenceRecord>, now: int): seq<string> {
    if records == [] then []
    else
      var last := records[|records| - 1];
      StaleKeys(records[..|records| - 1], now) + (if IsStale(last, now) then [last.key] else [])
  }

  /** The sweep deletes the key of a record exactly when some record under that key is stale. */
  lemma {:induction false} StaleKeysMembers(records: seq<PresenceRecord>, now: int)
    ensures |StaleKeys(records, now)| <= |records|
    ensures forall k :: k in StaleKeys(records, now) <==>
              exists i :: 0 <= i < |records| && records[i].key == k && IsStale(records[i], now)
  {
    if records != [] {
      var init := records[..|records| - 1];
      StaleKeysMembers(init, now);
      assert forall i :: 0 <= i < |init| ==> init[i] == records[i];
    }
  }

  /** Stale-presence sweep over one read of the collection. */
  method Sweep(records: seq<PresenceRecord>, now: int) returns (deleted: seq<string>)
    ensures deleted == StaleKeys(records, now)
    ensures forall k :: k in deleted <==>
              exists i :: 0 <= i < |records| && records[i].key == k && IsStale(records[i], now)
  {
    deleted := [];
    var i := 0;
    while i < |records|
      invariant 0 <= i <= |records|
      invariant deleted == StaleKeys(records[..i], now)
    {
      assert records[..i + 1][..i] == records[..i];
      if IsStale(records[i], now) {
        deleted := deleted + [records[i].key];
      }
      i := i + 1;
    }
    assert records[..i] == records;
    StaleKeysMembers(records, now);
  }

  /** A record refreshed within the threshold survives the sweep, whatever its online flag. */
  lemma RecentRecordSurvives(r: PresenceRecord, now: int, age: int)
    requires r.lastSeen == Some(now - age) && age <= StaleThresholdMs
    ensures !IsStale(r, now) && !IsStale(r.(isOnline := !r.isOnline), now)
  {
  }

  /** A record without a timestamp is deleted by any sweep after the first five minutes of the epoch. */
  lemma MissingTimestampIsStale(r: PresenceRecord, now: int)
    requires r.lastSeen.None? && now > StaleThresholdMs
    ensures IsStale(r, now)
  {
  }
}

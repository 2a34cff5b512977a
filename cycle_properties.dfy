/**
 * What one polling cycle does to the tracked wars and which alerts it sends, proved about the
 * specification functions that the `WarMonitor` methods are verified against.
 */
module CycleProperties {
  import opened Grouping
  import opened Store
  import opened Alert
  import opened Monitor

  // ---------------------------------------------------------------------------------------------
  // Tracking: rows are only ever appended, each comes from a defensive war fetched with its
  // owner's key, every such war ends up tracked, and war ids stay unique.

  /** `r` keeps every row of `t` in place and may add rows after them. */
  predicate Extends(t: seq<TrackedWar>, r: seq<TrackedWar>) {
    |t| <= |r| && r[..|t|] == t
  }

  lemma ExtendsTrans(a: seq<TrackedWar>, b: seq<TrackedWar>, c: seq<TrackedWar>)
    requires Extends(a, b) && Extends(b, c)
    ensures Extends(a, c)
  {
    assert c[..|a|] == c[..|b|][..|a|];
  }

  lemma ExtendsTracked(t: seq<TrackedWar>, r: seq<TrackedWar>, warId: string)
    requires Extends(t, r) && Tracked(t, warId)
    ensures Tracked(r, warId)
  {
    var w :| w in t && w.warId == warId;
    var k :| 0 <= k < |t| && t[k] == w;
    assert r[..|t|][k] == r[k];
  }

  /** `row` is the row that some war of `wars` asks `addTrackedWar` to insert. */
  ghost predicate FromWars(row: TrackedWar, wars: seq<War>, allianceId: int, now: int) {
    exists w :: w in wars && row == RowFor(w, allianceId, now)
  }

  /** One insert keeps the table's rows in place and appends at most the inserted row. */
  lemma WithWarStep(t: seq<TrackedWar>, row: TrackedWar)
    requires UniqueWarIds(t)
    ensures var r := WithWar(t, row);
      && UniqueWarIds(r) && Extends(t, r) && Tracked(r, row.warId)
      && forall i :: |t| <= i < |r| ==> r[i] == row
  {
    WithWarIdempotent(t, row);
  }

  lemma {:induction false} TrackWarsEffect(t: seq<TrackedWar>, wars: seq<War>, allianceId: int, now: int)
    requires UniqueWarIds(t)
    ensures var r := TrackWars(t, wars, allianceId, now);
      && UniqueWarIds(r) && Extends(t, r)
      && (forall i :: |t| <= i < |r| ==> FromWars(r[i], wars, allianceId, now))
      && (forall w :: w in wars ==> Tracked(r, w.id))
  {
    if wars != [] {
      var p, x := wars[..|wars| - 1], wars[|wars| - 1];
      assert wars == p + [x];
      var r1 := TrackWars(t, p, allianceId, now);
      TrackWarsEffect(t, p, allianceId, now);
      var r := WithWar(r1, RowFor(x, allianceId, now));
      WithWarStep(r1, RowFor(x, allianceId, now));
      ExtendsTrans(t, r1, r);
      forall i | |t| <= i < |r| ensures FromWars(r[i], wars, allianceId, now) {
        if i < |r1| {
          assert r[..|r1|][i] == r[i];
          var w :| w in p && r1[i] == RowFor(w, allianceId, now);
          assert w in wars;
        } else {
          assert x in wars;
        }
      }
      forall w | w in wars ensures Tracked(r, w.id) {
        if w in p {
          ExtendsTracked(r1, r, w.id);
        }
      }
    }
  }

  lemma CheckAllianceEffect(t: seq<TrackedWar>, m: MonitoredAlliance, apiKey: string,
                            upstream: (int, string) -> Fetch, now: int)
    requires UniqueWarIds(t)
    ensures var r := CheckAlliance(t, m, apiKey, upstream, now);
      && UniqueWarIds(r) && Extends(t, r)
      && (forall i :: |t| <= i < |r| ==>
            exists w :: Yields(m, apiKey, upstream, w) && r[i] == RowFor(w, m.allianceId, now))
      && (forall w :: Yields(m, apiKey, upstream, w) ==> Tracked(r, w.id))
  {
    match upstream(m.allianceId, apiKey)
    case FetchFailed =>
    case Fetched(wars) =>
      var defensive := DefensiveWars(wars, m.allianceId);
      TrackWarsEffect(t, defensive, m.allianceId, now);
  }

  /** `row` is what some subscription's defensive war, fetched with `apiKey`, asks to insert. */
  ghost predicate FetchedWith(row: TrackedWar, subs: seq<MonitoredAlliance>, apiKey: string,
                              upstream: (int, string) -> Fetch, now: int)
  {
    exists m, w :: m in subs && Yields(m, apiKey, upstream, w) && row == RowFor(w, m.allianceId, now)
  }

  /** `row` is what some subscription's defensive war, fetched with its owner's key, asks to insert. */
  ghost predicate FetchedFor(row: TrackedWar, subs: seq<MonitoredAlliance>, keys: map<string, string>,
                             upstream: (int, string) -> Fetch, now: int)
  {
    exists m, w :: m in subs && Contributes(m, w, keys, upstream) && row == RowFor(w, m.allianceId, now)
  }

  lemma {:induction false} CheckSubscriptionsEffect(t: seq<TrackedWar>, subs: seq<MonitoredAlliance>, apiKey: string,
                                                   upstream: (int, string) -> Fetch, now: int)
    requires UniqueWarIds(t)
    ensures var r := CheckSubscriptions(t, subs, apiKey, upstream, now);
      && UniqueWarIds(r) && Extends(t, r)
      && (forall i :: |t| <= i < |r| ==> FetchedWith(r[i], subs, apiKey, upstream, now))
      && (forall m, w :: m in subs && Yields(m, apiKey, upstream, w) ==> Tracked(r, w.id))
  {
    if subs != [] {
      var p, last := subs[..|subs| - 1], subs[|subs| - 1];
      assert subs == p + [last];
      var r1 := CheckSubscriptions(t, p, apiKey, upstream, now);
      CheckSubscriptionsEffect(t, p, apiKey, upstream, now);
      CheckAllianceEffect(r1, last, apiKey, upstream, now);
      var r := CheckSubscriptions(t, subs, apiKey, upstream, now);
      ExtendsTrans(t, r1, r);
      forall i | |t| <= i < |r| ensures FetchedWith(r[i], subs, apiKey, upstream, now) {
        if i < |r1| {
          assert r[..|r1|][i] == r[i];
          var m, w :| m in p && Yields(m, apiKey, upstream, w) && r1[i] == RowFor(w, m.allianceId, now);
          assert m in subs;
        } else {
          var w :| Yields(last, apiKey, upstream, w) && r[i] == RowFor(w, last.allianceId, now);
          assert last in subs;
        }
      }
      forall m, w | m in subs && Yields(m, apiKey, upstream, w) ensures Tracked(r, w.id) {
        if m in p {
          ExtendsTracked(r1, r, w.id);
        }
      }
    }
  }

  lemma {:induction false} CheckUsersEffect(t: seq<TrackedWar>, users: seq<string>, subs: seq<MonitoredAlliance>,
                                           keys: map<string, string>, upstream: (int, string) -> Fetch, now: int)
    requires UniqueWarIds(t)
    ensures var r := CheckUsers(t, users, subs, keys, upstream, now);
      && UniqueWarIds(r) && Extends(t, r)
      && (forall i :: |t| <= i < |r| ==> FetchedFor(r[i], subs, keys, upstream, now))
      && (forall m, w :: m in subs && m.userId in users && Contributes(m, w, keys, upstream) ==> Tracked(r, w.id))
  {
    if users != [] {
      var p, u := users[..|users| - 1], users[|users| - 1];
      assert users == p + [u];
      var r1 := CheckUsers(t, p, subs, keys, upstream, now);
      CheckUsersEffect(t, p, subs, keys, upstream, now);
      var r := CheckUsers(t, users, subs, keys, upstream, now);
      var group := Group(subs, UserOf, u);
      GroupMembers(subs, UserOf, u);
      if HasUsableKey(keys, u) {
        assert r == CheckSubscriptions(r1, group, keys[u], upstream, now);
        CheckSubscriptionsEffect(r1, group, keys[u], upstream, now);
        ExtendsTrans(t, r1, r);
        forall i | |t| <= i < |r| ensures FetchedFor(r[i], subs, keys, upstream, now) {
          if i < |r1| {
            assert r[..|r1|][i] == r[i];
          } else {
            assert FetchedWith(r[i], group, keys[u], upstream, now);
            var m, w :| m in group && Yields(m, keys[u], upstream, w) && r[i] == RowFor(w, m.allianceId, now);
            assert m in subs && m.userId == u;
            assert Contributes(m, w, keys, upstream);
          }
        }
        forall m, w | m in subs && m.userId in users && Contributes(m, w, keys, upstream) ensures Tracked(r, w.id) {
          if m.userId == u {
            assert m in group;
          } else {
            assert m.userId in p;
            ExtendsTracked(r1, r, w.id);
          }
        }
      } else {
        assert r == r1;
        forall m, w | m in subs && m.userId in users && Contributes(m, w, keys, upstream) ensures Tracked(r, w.id) {
          assert m.userId != u;
          assert m.userId in p;
        }
      }
    }
  }

  /**
   * The tracking phase only appends rows; each appended row is the unnotified row of a defensive
   * war that upstream reported for a subscription whose owner has a usable key; every such war
   * is tracked afterwards; and war ids stay unique.
   */
  lemma TrackingPhaseEffect(t: seq<TrackedWar>, subs: seq<MonitoredAlliance>, keys: map<string, string>,
                            upstream: (int, string) -> Fetch, now: int)
    requires UniqueWarIds(t)
    ensures var r := TrackingPhase(t, subs, keys, upstream, now);
      && UniqueWarIds(r) && Extends(t, r)
      && (forall i :: |t| <= i < |r| ==> FetchedFor(r[i], subs, keys, upstream, now))
      && (forall m, w :: m in subs && Contributes(m, w, keys, upstream) ==> Tracked(r, w.id))
  {
    var users := Keys(subs, UserOf);
    CheckUsersEffect(t, users, subs, keys, upstream, now);
    forall m | m in subs ensures m.userId in users {
      KeysComplete(subs, UserOf, m.userId);
      assert UserOf(m) == m.userId;
    }
  }

  // ---------------------------------------------------------------------------------------------
  // Tracking is idempotent: a second pass over the same upstream answers inserts nothing.

  lemma {:induction false} TrackWarsNoop(t: seq<TrackedWar>, wars: seq<War>, allianceId: int, now: int)
    requires UniqueWarIds(t)
    requires forall w :: w in wars ==> Tracked(t, w.id)
    ensures TrackWars(t, wars, allianceId, now) == t
  {
    if wars != [] {
      var p := wars[..|wars| - 1];
      assert forall w :: w in p ==> w in wars;
      TrackWarsNoop(t, p, allianceId, now);
      assert wars[|wars| - 1] in wars;
      WithWarIdempotent(t, RowFor(wars[|wars| - 1], allianceId, now));
    }
  }

  lemma CheckAllianceNoop(t: seq<TrackedWar>, m: MonitoredAlliance, apiKey: string,
                          upstream: (int, string) -> Fetch, now: int)
    requires UniqueWarIds(t)
    requires forall w :: Yields(m, apiKey, upstream, w) ==> Tracked(t, w.id)
    ensures CheckAlliance(t, m, apiKey, upstream, now) == t
  {
    match upstream(m.allianceId, apiKey)
    case FetchFailed =>
    case Fetched(wars) =>
      TrackWarsNoop(t, DefensiveWars(wars, m.allianceId), m.allianceId, now);
  }

  lemma {:induction false} CheckSubscriptionsNoop(t: seq<TrackedWar>, subs: seq<MonitoredAlliance>, apiKey: string,
                                                 upstream: (int, string) -> Fetch, now: int)
    requires UniqueWarIds(t)
    requires forall m, w :: m in subs && Yields(m, apiKey, upstream, w) ==> Tracked(t, w.id)
    ensures CheckSubscriptions(t, subs, apiKey, upstream, now) == t
  {
    if subs != [] {
      var p, last := subs[..|subs| - 1], subs[|subs| - 1];
      assert forall m :: m in p ==> m in subs;
      CheckSubscriptionsNoop(t, p, apiKey, upstream, now);
      assert last in subs;
      CheckAllianceNoop(t, last, apiKey, upstream, now);
    }
  }

  lemma {:induction false} CheckUsersNoop(t: seq<TrackedWar>, users: seq<string>, subs: seq<MonitoredAlliance>,
                                         keys: map<string, string>, upstream: (int, string) -> Fetch, now: int)
    requires UniqueWarIds(t)
    requires forall m, w :: m in subs && Contributes(m, w, keys, upstream) ==> Tracked(t, w.id)
    ensures CheckUsers(t, users, subs, keys, upstream, now) == t
  {
    if users != [] {
      var u := users[|users| - 1];
      CheckUsersNoop(t, users[..|users| - 1], subs, keys, upstream, now);
      if HasUsableKey(keys, u) {
        var group := Group(subs, UserOf, u);
        GroupMembers(subs, UserOf, u);
        forall m, w | m in group && Yields(m, keys[u], upstream, w) ensures Tracked(t, w.id) {
          assert m in subs && m.userId == u;
          assert Contributes(m, w, keys, upstream);
        }
        CheckSubscriptionsNoop(t, group, keys[u], upstream, now);
      }
    }
  }

  /** Running the tracking phase again on the same upstream answers leaves the table as it is. */
  lemma TrackingIdempotent(t: seq<TrackedWar>, subs: seq<MonitoredAlliance>, keys: map<string, string>,
                           upstream: (int, string) -> Fetch, now: int, later: int)
    requires UniqueWarIds(t)
    ensures var r := TrackingPhase(t, subs, keys, upstream, now);
      TrackingPhase(r, subs, keys, upstream, later) == r
  {
    var r := TrackingPhase(t, subs, keys, upstream, now);
    TrackingPhaseEffect(t, subs, keys, upstream, now);
    CheckUsersNoop(r, Keys(subs, UserOf), subs, keys, upstream, later);
  }

  // ---------------------------------------------------------------------------------------------
  // Marking: a cycle marks exactly the unnotified wars of subscribed alliances and nothing else.

  /** The alliance has at least one subscription exactly when some subscription monitors it. */
  lemma MonitorsNonEmpty(subs: seq<MonitoredAlliance>, allianceId: int)
    ensures Monitors(subs, allianceId) == [] <==> !Subscribed(subs, allianceId)
  {
    MonitorsMembers(subs, allianceId);
    if Monitors(subs, allianceId) != [] {
      assert Monitors(subs, allianceId)[0] in Monitors(subs, allianceId);
    }
  }

  lemma {:induction false} MarkAllEffect(t: seq<TrackedWar>, wars: seq<TrackedWar>)
    ensures var r := MarkAll(t, wars);
      && |r| == |t|
      && forall i :: 0 <= i < |t| ==>
           r[i].(notified := t[i].notified) == t[i] && r[i].notified == (t[i].notified || Tracked(wars, t[i].warId))
  {
    if wars != [] {
      var p, x := wars[..|wars| - 1], wars[|wars| - 1];
      assert wars == p + [x];
      MarkAllEffect(t, p);
      var r1 := MarkAll(t, p);
      WithNotifiedEffect(r1, x.warId);
      forall i | 0 <= i < |t| ensures Tracked(wars, t[i].warId) <==> Tracked(p, t[i].warId) || x.warId == t[i].warId {
        if Tracked(p, t[i].warId) {
          var w :| w in p && w.warId == t[i].warId;
          assert w in wars;
        }
        if Tracked(wars, t[i].warId) && x.warId != t[i].warId {
          var w :| w in wars && w.warId == t[i].warId;
          assert w in p;
        }
        if x.warId == t[i].warId {
          assert x in wars;
        }
      }
    }
  }

  /** An alliance's wars are marked only when a subscription monitors it, and then all of them. */
  lemma AllianceMarksEffect(t: seq<TrackedWar>, allianceId: int, wars: seq<TrackedWar>, subs: seq<MonitoredAlliance>)
    ensures var r := AllianceMarks(t, allianceId, wars, subs);
      && |r| == |t|
      && forall i :: 0 <= i < |t| ==>
           && r[i].(notified := t[i].notified) == t[i]
           && r[i].notified == (t[i].notified || (Subscribed(subs, allianceId) && Tracked(wars, t[i].warId)))
  {
    MonitorsNonEmpty(subs, allianceId);
    MarkAllEffect(t, wars);
  }

  /** Some listed, subscribed alliance has a war with this id in its group. */
  ghost predicate AlertedFor(unnotified: seq<TrackedWar>, alliances: seq<int>, subs: seq<MonitoredAlliance>,
                             warId: string)
  {
    exists a :: a in alliances && Subscribed(subs, a) && Tracked(Group(unnotified, AllianceOf, a), warId)
  }

  lemma {:induction false} NotifyTableEffect(t: seq<TrackedWar>, unnotified: seq<TrackedWar>, alliances: seq<int>,
                                            subs: seq<MonitoredAlliance>)
    ensures var r := NotifyTable(t, unnotified, alliances, subs);
      && |r| == |t|
      && forall i :: 0 <= i < |t| ==>
           && r[i].(notified := t[i].notified) == t[i]
           && r[i].notified == (t[i].notified || AlertedFor(unnotified, alliances, subs, t[i].warId))
  {
    if alliances != [] {
      var p, a := alliances[..|alliances| - 1], alliances[|alliances| - 1];
      assert alliances == p + [a];
      NotifyTableEffect(t, unnotified, p, subs);
      var r1 := NotifyTable(t, unnotified, p, subs);
      var group := Group(unnotified, AllianceOf, a);
      AllianceMarksEffect(r1, a, group, subs);
      forall i | 0 <= i < |t|
        ensures AlertedFor(unnotified, alliances, subs, t[i].warId)
            <==> AlertedFor(unnotified, p, subs, t[i].warId) || (Subscribed(subs, a) && Tracked(group, t[i].warId))
      {
        var id := t[i].warId;
        if AlertedFor(unnotified, p, subs, id) {
          var b :| b in p && Subscribed(subs, b) && Tracked(Group(unnotified, AllianceOf, b), id);
          assert b in alliances;
        }
        if Subscribed(subs, a) && Tracked(group, id) {
          assert a in alliances;
        }
        if AlertedFor(unnotified, alliances, subs, id) && !(Subscribed(subs, a) && Tracked(group, id)) {
          var b :| b in alliances && Subscribed(subs, b) && Tracked(Group(unnotified, AllianceOf, b), id);
          assert b != a && b in p;
        }
      }
    }
  }

  /**
   * Over the grouping of the reloaded unnotified wars, a tracked war is alerted exactly when it
   * was not yet notified and its alliance has a subscription.
   */
  lemma AlertedIff(tracked: seq<TrackedWar>, subs: seq<MonitoredAlliance>, i: int)
    requires UniqueWarIds(tracked) && 0 <= i < |tracked|
    ensures var unnotified := UnnotifiedWars(tracked);
      (AlertedFor(unnotified, Keys(unnotified, AllianceOf), subs, tracked[i].warId)
       <==> !tracked[i].notified && Subscribed(subs, tracked[i].allianceId))
  {
    var unnotified := UnnotifiedWars(tracked);
    var alliances := Keys(unnotified, AllianceOf);
    var row := tracked[i];
    UnnotifiedWarsSpec(tracked);
    if !row.notified && Subscribed(subs, row.allianceId) {
      var a := row.allianceId;
      assert row in tracked;
      GroupMembers(unnotified, AllianceOf, a);
      assert row in Group(unnotified, AllianceOf, a);
      KeysComplete(unnotified, AllianceOf, a);
      assert a in alliances;
    }
    if AlertedFor(unnotified, alliances, subs, row.warId) {
      var a :| a in alliances && Subscribed(subs, a) && Tracked(Group(unnotified, AllianceOf, a), row.warId);
      var w :| w in Group(unnotified, AllianceOf, a) && w.warId == row.warId;
      GroupMembers(unnotified, AllianceOf, a);
      assert w in unnotified && w.allianceId == a;
      var j :| 0 <= j < |tracked| && tracked[j] == w;
      assert j == i;
    }
  }

  /**
   * After a cycle that ran, the table holds the tracked rows in place, each with only its flag
   * possibly changed: a row ends up notified exactly when it already was or its alliance has a
   * subscription. Wars of an alliance nobody subscribes to stay unnotified.
   */
  lemma CycleMarksSubscribedWars(subs: seq<MonitoredAlliance>, keys: map<string, string>, t: seq<TrackedWar>,
                                 upstream: (int, string) -> Fetch, deliver: (int, string) -> Delivery, now: int)
    requires subs != [] && UniqueWarIds(t)
    ensures var tracked := TrackingPhase(t, subs, keys, upstream, now);
      var r := PollingCycle(true, subs, keys, t, upstream, deliver, now).wars;
      && |r| == |tracked|
      && forall i :: 0 <= i < |tracked| ==>
           && r[i].(notified := tracked[i].notified) == tracked[i]
           && r[i].notified == (tracked[i].notified || Subscribed(subs, tracked[i].allianceId))
  {
    var tracked := TrackingPhase(t, subs, keys, upstream, now);
    TrackingPhaseEffect(t, subs, keys, upstream, now);
    var unnotified := UnnotifiedWars(tracked);
    NotifyTableEffect(tracked, unnotified, Keys(unnotified, AllianceOf), subs);
    forall i | 0 <= i < |tracked|
      ensures AlertedFor(unnotified, Keys(unnotified, AllianceOf), subs, tracked[i].warId)
          <==> !tracked[i].notified && Subscribed(subs, tracked[i].allianceId)
    {
      AlertedIff(tracked, subs, i);
    }
  }

  /** Without a subscription, or before the database is open, a cycle changes and sends nothing. */
  lemma CycleWithoutSubscriptions(initialized: bool, subs: seq<MonitoredAlliance>, keys: map<string, string>,
                                  t: seq<TrackedWar>, upstream: (int, string) -> Fetch,
                                  deliver: (int, string) -> Delivery, now: int)
    requires !initialized || subs == []
    ensures PollingCycle(initialized, subs, keys, t, upstream, deliver, now) == CycleResult(t, [])
  {
  }

  // ---------------------------------------------------------------------------------------------
  // Fan-out: one attempt per monitoring channel, each with the alliance's alert, whatever the
  // other deliveries ended in.

  /** The attempts made for one alliance, in order. */
  function ForAlliance(xs: seq<SendAttempt>, allianceId: int): seq<SendAttempt> {
    if xs == [] then []
    else
      ForAlliance(xs[..|xs| - 1], allianceId)
        + (if xs[|xs| - 1].allianceId == allianceId then [xs[|xs| - 1]] else [])
  }

  lemma {:induction false} ForAllianceConcat(xs: seq<SendAttempt>, ys: seq<SendAttempt>, allianceId: int)
    ensures ForAlliance(xs + ys, allianceId) == ForAlliance(xs, allianceId) + ForAlliance(ys, allianceId)
  {
    if ys != [] {
      var q := ys[..|ys| - 1];
      assert (xs + ys)[..|xs + ys| - 1] == xs + q;
      ForAllianceConcat(xs, q, allianceId);
    } else {
      assert xs + ys == xs;
    }
  }

  lemma {:induction false} ForAllianceUniform(xs: seq<SendAttempt>, a: int, b: int)
    requires forall x :: x in xs ==> x.allianceId == a
    ensures ForAlliance(xs, b) == if a == b then xs else []
  {
    if xs != [] {
      var p := xs[..|xs| - 1];
      assert forall x :: x in p ==> x in xs;
      ForAllianceUniform(p, a, b);
      assert xs[|xs| - 1] in xs;
      assert xs == p + [xs[|xs| - 1]];
    }
  }

  /** The send loop makes one attempt per monitor, to its channel, with the same embed, and keeps each outcome. */
  lemma {:induction false} AttemptsSpec(allianceId: int, embed: Embed, monitors: seq<MonitoredAlliance>,
                                       deliver: (int, string) -> Delivery)
    ensures var r := Attempts(allianceId, embed, monitors, deliver);
      && |r| == |monitors|
      && forall j :: 0 <= j < |r| ==>
           r[j] == SendAttempt(allianceId, monitors[j].channelId, embed, deliver(allianceId, monitors[j].channelId))
  {
    if monitors != [] {
      var p := monitors[..|monitors| - 1];
      AttemptsSpec(allianceId, embed, p, deliver);
      var r := Attempts(allianceId, embed, monitors, deliver);
      forall j | 0 <= j < |r|
        ensures r[j] == SendAttempt(allianceId, monitors[j].channelId, embed, deliver(allianceId, monitors[j].channelId))
      {
        if j < |p| {
          assert monitors[j] == p[j];
        }
      }
    }
  }

  lemma AllianceAttemptsOwn(allianceId: int, wars: seq<TrackedWar>, subs: seq<MonitoredAlliance>,
                            deliver: (int, string) -> Delivery, now: int, b: int)
    ensures ForAlliance(AllianceAttempts(allianceId, wars, subs, deliver, now), b)
         == if allianceId == b then AllianceAttempts(allianceId, wars, subs, deliver, now) else []
  {
    var xs := AllianceAttempts(allianceId, wars, subs, deliver, now);
    var monitors := Monitors(subs, allianceId);
    if monitors != [] {
      AttemptsSpec(allianceId, WarAlert(allianceId, wars, now), monitors, deliver);
    }
    forall x | x in xs ensures x.allianceId == allianceId {
      var j :| 0 <= j < |xs| && xs[j] == x;
    }
    ForAllianceUniform(xs, allianceId, b);
  }

  /** Over distinct alliances, the attempts for `b` are exactly those of `b`'s own alert, if `b` is listed. */
  lemma {:induction false} NotifyFanOut(unnotified: seq<TrackedWar>, alliances: seq<int>, subs: seq<MonitoredAlliance>,
                                       deliver: (int, string) -> Delivery, now: int, b: int)
    requires Distinct(alliances)
    ensures ForAlliance(NotifyAttempts(unnotified, alliances, subs, deliver, now), b)
         == if b in alliances then AllianceAttempts(b, Group(unnotified, AllianceOf, b), subs, deliver, now) else []
  {
    if alliances != [] {
      var p, a := alliances[..|alliances| - 1], alliances[|alliances| - 1];
      assert alliances == p + [a];
      forall i, j | 0 <= i < j < |p| ensures p[i] != p[j] {
        assert p[i] == alliances[i] && p[j] == alliances[j];
      }
      assert a !in p by {
        forall i | 0 <= i < |p| ensures p[i] != a {
          assert p[i] == alliances[i];
        }
      }
      NotifyFanOut(unnotified, p, subs, deliver, now, b);
      var before := NotifyAttempts(unnotified, p, subs, deliver, now);
      var own := AllianceAttempts(a, Group(unnotified, AllianceOf, a), subs, deliver, now);
      assert NotifyAttempts(unnotified, alliances, subs, deliver, now) == before + own;
      ForAllianceConcat(before, own, b);
      AllianceAttemptsOwn(a, Group(unnotified, AllianceOf, a), subs, deliver, now, b);
      if b == a {
        assert ForAlliance(before, b) == [];
        assert ForAlliance(before, b) + ForAlliance(own, b) == own;
      } else {
        assert ForAlliance(own, b) == [];
        assert b in alliances <==> b in p;
        assert ForAlliance(before, b) + ForAlliance(own, b) == ForAlliance(before, b);
      }
    }
  }

  /** Over the grouping of a list of unnotified wars, the attempts for `b` are its group's alert to each monitor. */
  lemma GroupFanOut(unnotified: seq<TrackedWar>, subs: seq<MonitoredAlliance>, deliver: (int, string) -> Delivery,
                    now: int, b: int)
    ensures var group := Group(unnotified, AllianceOf, b);
      var monitors := Monitors(subs, b);
      var sent := ForAlliance(NotifyAttempts(unnotified, Keys(unnotified, AllianceOf), subs, deliver, now), b);
      && (group == [] ==> sent == [])
      && (group != [] ==>
            && |sent| == |monitors|
            && forall j :: 0 <= j < |sent| ==>
                 sent[j] == SendAttempt(b, monitors[j].channelId, WarAlert(b, group, now), deliver(b, monitors[j].channelId)))
  {
    var group := Group(unnotified, AllianceOf, b);
    KeysDistinct(unnotified, AllianceOf);
    NotifyFanOut(unnotified, Keys(unnotified, AllianceOf), subs, deliver, now, b);
    GroupEmpty(unnotified, AllianceOf, b);
    if group != [] && Monitors(subs, b) != [] {
      AttemptsSpec(b, WarAlert(b, group, now), Monitors(subs, b), deliver);
    }
  }

  /**
   * In a cycle that ran, an alliance with unnotified wars after tracking gets exactly one attempt
   * per subscription monitoring it, to that subscription's channel, all with the same alert over
   * its group of wars, and each keeps its own outcome; an alliance without unnotified wars gets none.
   */
  lemma CycleFanOut(subs: seq<MonitoredAlliance>, keys: map<string, string>, t: seq<TrackedWar>,
                    upstream: (int, string) -> Fetch, deliver: (int, string) -> Delivery, now: int, b: int)
    requires subs != []
    ensures var unnotified := UnnotifiedWars(TrackingPhase(t, subs, keys, upstream, now));
      var group := Group(unnotified, AllianceOf, b);
      var monitors := Monitors(subs, b);
      var sent := ForAlliance(PollingCycle(true, subs, keys, t, upstream, deliver, now).attempts, b);
      && (forall w :: w in group <==> w in unnotified && w.allianceId == b)
      && (group == [] ==> sent == [])
      && (group != [] ==>
            && |sent| == |monitors|
            && forall j :: 0 <= j < |sent| ==>
                 sent[j] == SendAttempt(b, monitors[j].channelId, WarAlert(b, group, now), deliver(b, monitors[j].channelId)))
  {
    var unnotified := UnnotifiedWars(TrackingPhase(t, subs, keys, upstream, now));
    GroupMembers(unnotified, AllianceOf, b);
    GroupFanOut(unnotified, subs, deliver, now, b);
  }

  // ---------------------------------------------------------------------------------------------
  // Newest first: each alliance's group keeps the reload's order, so its alert lists the newest wars.

  lemma SnocSorted(s: seq<TrackedWar>, x: TrackedWar)
    requires SortedDesc(s) && forall y :: y in s ==> y.warDate >= x.warDate
    ensures SortedDesc(s + [x])
  {
    var r := s + [x];
    forall i, j | 0 <= i < j < |r| ensures r[i].warDate >= r[j].warDate {
      if j == |s| {
        assert r[i] in s;
      }
    }
  }

  lemma {:induction false} GroupSorted(s: seq<TrackedWar>, allianceId: int)
    requires SortedDesc(s)
    ensures SortedDesc(Group(s, AllianceOf, allianceId))
  {
    if s != [] {
      var p, x := s[..|s| - 1], s[|s| - 1];
      assert SortedDesc(p);
      GroupSorted(p, allianceId);
      GroupMembers(p, AllianceOf, allianceId);
      forall y | y in Group(p, AllianceOf, allianceId) ensures y.warDate >= x.warDate {
        var k :| 0 <= k < |p| && p[k] == y;
        assert s[k] == y;
      }
      if AllianceOf(x) == allianceId {
        SnocSorted(Group(p, AllianceOf, allianceId), x);
      }
    }
  }

  /** The group an alert is built from is ordered newest first. */
  lemma AlertGroupNewestFirst(tracked: seq<TrackedWar>, allianceId: int)
    ensures SortedDesc(Group(UnnotifiedWars(tracked), AllianceOf, allianceId))
  {
    UnnotifiedWarsSpec(tracked);
    GroupSorted(UnnotifiedWars(tracked), allianceId);
  }
}

/**
 * One polling cycle of the war monitor. The upstream war API and the Discord delivery are
 * parameters: `upstream(allianceId, apiKey)` is what `getAllianceWars` resolves or rejects with,
 * and `deliver(allianceId, channelId)` is what fetching the channel and sending the embed ends in.
 * Being functions, they answer two calls with the same arguments within one cycle alike.
 */
module Monitor {
  import opened Wrappers
  import opened Decimal
  import opened Grouping
  import opened Store
  import opened Alert

  /** The upstream `War` record: ids are strings, a nation may belong to no alliance. */
  datatype AllianceRef = AllianceRef(id: string, name: string)
  datatype Side = Side(nationId: string, nationName: string, alliance: Option<AllianceRef>)
  datatype War = War(id: string, date: int, attacker: Side, defender: Side, turnsLeft: int)

  /** What `getAllianceWars` gives: the active wars, or a rejection (network, authorisation). */
  datatype Fetch = Fetched(wars: seq<War>) | FetchFailed

  /** How one channel's delivery ends: sent, skipped because the channel is not text-based, or thrown. */
  datatype Delivery = Sent | NotTextChannel | SendFailed

  /** One iteration of the per-channel send loop. */
  datatype SendAttempt = SendAttempt(allianceId: int, channelId: string, embed: Embed, outcome: Delivery)

  /** The database contents and the sends one cycle leaves behind. */
  datatype CycleResult = CycleResult(wars: seq<TrackedWar>, attempts: seq<SendAttempt>)

  // ---------------------------------------------------------------------------------------------
  // Tracking phase

  /** `war.defender.alliance?.id === alliance.alliance_id.toString()`. */
  predicate IsDefensive(w: War, allianceId: int) {
    w.defender.alliance.Some? && w.defender.alliance.value.id == IntToString(allianceId)
  }

  /** The defensive wars of the alliance, in upstream order. */
  function DefensiveWars(wars: seq<War>, allianceId: int): (r: seq<War>)
    ensures forall w :: w in r <==> w in wars && IsDefensive(w, allianceId)
  {
    if wars == [] then []
    else (if IsDefensive(wars[0], allianceId) then [wars[0]] else []) + DefensiveWars(wars[1..], allianceId)
  }

  /** The row `addTrackedWar` is asked to insert for an upstream war. */
  function RowFor(w: War, allianceId: int, now: int): TrackedWar {
    NewWar(w.id, allianceId, w.attacker.nationName, w.defender.nationName, w.date, now)
  }

  function UserOf(m: MonitoredAlliance): string {
    m.userId
  }

  function AllianceOf(w: TrackedWar): int {
    w.allianceId
  }

  /** `if (!apiKey)` skips a missing key and an empty one alike. */
  predicate HasUsableKey(keys: map<string, string>, userId: string) {
    userId in keys && keys[userId] != ""
  }

  /** The defensive wars upstream reports for `m`'s alliance under `apiKey`. */
  predicate Yields(m: MonitoredAlliance, apiKey: string, upstream: (int, string) -> Fetch, w: War) {
    var f := upstream(m.allianceId, apiKey);
    f.Fetched? && w in f.wars && IsDefensive(w, m.allianceId)
  }

  /** `w` is a defensive war fetched for subscription `m` with its owner's stored key. */
  predicate Contributes(m: MonitoredAlliance, w: War, keys: map<string, string>, upstream: (int, string) -> Fetch) {
    HasUsableKey(keys, m.userId) && Yields(m, keys[m.userId], upstream, w)
  }

  /** The insert loop of `checkAllianceWars`. */
  function TrackWars(t: seq<TrackedWar>, wars: seq<War>, allianceId: int, now: int): seq<TrackedWar> {
    if wars == [] then t
    else WithWar(TrackWars(t, wars[..|wars| - 1], allianceId, now), RowFor(wars[|wars| - 1], allianceId, now))
  }

  /** `checkAllianceWars`: a failed fetch is caught and changes nothing. */
  function CheckAlliance(t: seq<TrackedWar>, m: MonitoredAlliance, apiKey: string,
                         upstream: (int, string) -> Fetch, now: int): seq<TrackedWar>
  {
    match upstream(m.allianceId, apiKey)
    case FetchFailed => t
    case Fetched(wars) => TrackWars(t, DefensiveWars(wars, m.allianceId), m.allianceId, now)
  }

  /** The loop over one user's subscriptions. */
  function CheckSubscriptions(t: seq<TrackedWar>, subs: seq<MonitoredAlliance>, apiKey: string,
                              upstream: (int, string) -> Fetch, now: int): seq<TrackedWar>
  {
    if subs == [] then t
    else CheckAlliance(CheckSubscriptions(t, subs[..|subs| - 1], apiKey, upstream, now), subs[|subs| - 1],
                       apiKey, upstream, now)
  }

  /** The loop over users, in the order `alliancesByUser` first met them; keyless users are skipped. */
  function CheckUsers(t: seq<TrackedWar>, users: seq<string>, subs: seq<MonitoredAlliance>,
                      keys: map<string, string>, upstream: (int, string) -> Fetch, now: int): seq<TrackedWar>
  {
    if users == [] then t
    else
      var before := CheckUsers(t, users[..|users| - 1], subs, keys, upstream, now);
      var u := users[|users| - 1];
      if HasUsableKey(keys, u) then CheckSubscriptions(before, Group(subs, UserOf, u), keys[u], upstream, now)
      else before
  }

  function TrackingPhase(t: seq<TrackedWar>, subs: seq<MonitoredAlliance>, keys: map<string, string>,
                         upstream: (int, string) -> Fetch, now: int): seq<TrackedWar>
  {
    CheckUsers(t, Keys(subs, UserOf), subs, keys, upstream, now)
  }

  // ---------------------------------------------------------------------------------------------
  // Notification phase

  /** `monitoredAlliances.filter(m => m.alliance_id === allianceId)`. */
  function Monitors(subs: seq<MonitoredAlliance>, allianceId: int): seq<MonitoredAlliance> {
    if subs == [] then []
    else (if subs[0].allianceId == allianceId then [subs[0]] else []) + Monitors(subs[1..], allianceId)
  }

  /** The monitors of an alliance are exactly its subscriptions. */
  lemma {:induction false} MonitorsMembers(subs: seq<MonitoredAlliance>, allianceId: int)
    ensures forall m :: m in Monitors(subs, allianceId) <==> m in subs && m.allianceId == allianceId
  {
    if subs != [] {
      MonitorsMembers(subs[1..], allianceId);
      assert subs == [subs[0]] + subs[1..];
    }
  }

  predicate Subscribed(subs: seq<MonitoredAlliance>, allianceId: int) {
    exists m :: m in subs && m.allianceId == allianceId
  }

  /** The send loop: one attempt per monitoring subscription, whatever the earlier ones ended in. */
  function Attempts(allianceId: int, embed: Embed, monitors: seq<MonitoredAlliance>,
                    deliver: (int, string) -> Delivery): seq<SendAttempt>
  {
    if monitors == [] then []
    else
      var m := monitors[|monitors| - 1];
      Attempts(allianceId, embed, monitors[..|monitors| - 1], deliver)
        + [SendAttempt(allianceId, m.channelId, embed, deliver(allianceId, m.channelId))]
  }

  /** The mark loop: one `markWarAsNotified` per war of the group. */
  function MarkAll(t: seq<TrackedWar>, wars: seq<TrackedWar>): seq<TrackedWar> {
    if wars == [] then t else WithNotified(MarkAll(t, wars[..|wars| - 1]), wars[|wars| - 1].warId)
  }

  /** The sends of `sendAllianceWarNotifications`: none when no subscription monitors the alliance. */
  function AllianceAttempts(allianceId: int, wars: seq<TrackedWar>, subs: seq<MonitoredAlliance>,
                            deliver: (int, string) -> Delivery, now: int): seq<SendAttempt>
  {
    var monitors := Monitors(subs, allianceId);
    if monitors == [] then [] else Attempts(allianceId, WarAlert(allianceId, wars, now), monitors, deliver)
  }

  /** The marks of `sendAllianceWarNotifications`: none when it returns early for lack of a subscription. */
  function AllianceMarks(t: seq<TrackedWar>, allianceId: int, wars: seq<TrackedWar>,
                         subs: seq<MonitoredAlliance>): seq<TrackedWar>
  {
    if Monitors(subs, allianceId) == [] then t else MarkAll(t, wars)
  }

  function NotifyTable(t: seq<TrackedWar>, unnotified: seq<TrackedWar>, alliances: seq<int>,
                       subs: seq<MonitoredAlliance>): seq<TrackedWar>
  {
    if alliances == [] then t
    else
      var a := alliances[|alliances| - 1];
      AllianceMarks(NotifyTable(t, unnotified, alliances[..|alliances| - 1], subs), a,
                    Group(unnotified, AllianceOf, a), subs)
  }

  function NotifyAttempts(unnotified: seq<TrackedWar>, alliances: seq<int>, subs: seq<MonitoredAlliance>,
                          deliver: (int, string) -> Delivery, now: int): seq<SendAttempt>
  {
    if alliances == [] then []
    else
      var a := alliances[|alliances| - 1];
      NotifyAttempts(unnotified, alliances[..|alliances| - 1], subs, deliver, now)
        + AllianceAttempts(a, Group(unnotified, AllianceOf, a), subs, deliver, now)
  }

  lemma CheckUsersStep(t: seq<TrackedWar>, users: seq<string>, i: nat, subs: seq<MonitoredAlliance>,
                        keys: map<string, string>, upstream: (int, string) -> Fetch, now: int)
    requires i < |users|
    ensures CheckUsers(t, users[..i + 1], subs, keys, upstream, now)
         == var before := CheckUsers(t, users[..i], subs, keys, upstream, now);
            if HasUsableKey(keys, users[i])
            then CheckSubscriptions(before, Group(subs, UserOf, users[i]), keys[users[i]], upstream, now)
            else before
  {
    assert users[..i + 1][..i] == users[..i];
  }

  lemma AttemptsStep(allianceId: int, embed: Embed, monitors: seq<MonitoredAlliance>, j: nat,
                      deliver: (int, string) -> Delivery)
    requires j < |monitors|
    ensures Attempts(allianceId, embed, monitors[..j + 1], deliver)
         == Attempts(allianceId, embed, monitors[..j], deliver)
            + [SendAttempt(allianceId, monitors[j].channelId, embed, deliver(allianceId, monitors[j].channelId))]
  {
    assert monitors[..j + 1][..j] == monitors[..j];
  }

  lemma MarkAllStep(t: seq<TrackedWar>, wars: seq<TrackedWar>, j: nat)
    requires j < |wars|
    ensures MarkAll(t, wars[..j + 1]) == WithNotified(MarkAll(t, wars[..j]), wars[j].warId)
  {
    assert wars[..j + 1][..j] == wars[..j];
  }

  lemma NotifyStep(t: seq<TrackedWar>, unnotified: seq<TrackedWar>, alliances: seq<int>, i: nat,
                    subs: seq<MonitoredAlliance>, deliver: (int, string) -> Delivery, now: int)
    requires i < |alliances|
    ensures NotifyTable(t, unnotified, alliances[..i + 1], subs)
         == AllianceMarks(NotifyTable(t, unnotified, alliances[..i], subs), alliances[i],
                          Group(unnotified, AllianceOf, alliances[i]), subs)
    ensures NotifyAttempts(unnotified, alliances[..i + 1], subs, deliver, now)
         == NotifyAttempts(unnotified, alliances[..i], subs, deliver, now)
            + AllianceAttempts(alliances[i], Group(unnotified, AllianceOf, alliances[i]), subs, deliver, now)
  {
    assert alliances[..i + 1][..i] == alliances[..i];
  }

  /**
   * `checkForNewWars`: nothing at all without subscriptions (or before the database is open);
   * otherwise the tracking phase, then one alert per alliance with unnotified wars.
   */
  function PollingCycle(initialized: bool, subs: seq<MonitoredAlliance>, keys: map<string, string>,
                        t: seq<TrackedWar>, upstream: (int, string) -> Fetch,
                        deliver: (int, string) -> Delivery, now: int): CycleResult
  {
    if !initialized || subs == [] then CycleResult(t, [])
    else
      var tracked := TrackingPhase(t, subs, keys, upstream, now);
      var unnotified := UnnotifiedWars(tracked);
      var alliances := Keys(unnotified, AllianceOf);
      CycleResult(NotifyTable(tracked, unnotified, alliances, subs),
                  NotifyAttempts(unnotified, alliances, subs, deliver, now))
  }

  /**
   * The per-channel send loop: each channel is tried in turn and whatever one delivery ends in,
   * the loop goes on to the next.
   */
  method SendToChannels(allianceId: int, embed: Embed, monitors: seq<MonitoredAlliance>,
                        deliver: (int, string) -> Delivery) returns (sent: seq<SendAttempt>)
    ensures sent == Attempts(allianceId, embed, monitors, deliver)
  {
    sent := [];
    for j := 0 to |monitors|
      invariant sent == Attempts(allianceId, embed, monitors[..j], deliver)
    {
      AttemptsStep(allianceId, embed, monitors, j, deliver);
      var channelId := monitors[j].channelId;
      sent := sent + [SendAttempt(allianceId, channelId, embed, deliver(allianceId, channelId))];
    }
    assert monitors[..|monitors|] == monitors;
  }

  // ---------------------------------------------------------------------------------------------
  // War summary

  /** What `getWarSummary` resolves with. */
  datatype WarSummary = WarSummary(total: int, recent: int, active: seq<TrackedWar>)

  /** `allWars.slice(0, 5)`. */
  const ActiveLimit: nat := 5

  /** The wars dated strictly after one day before `now`, in the order given. */
  function RecentWars(s: seq<TrackedWar>, now: int): (r: seq<TrackedWar>)
    ensures forall w :: w in r <==> w in s && w.warDate > now - DayMs
    ensures |r| <= |s|
  {
    if s == [] then []
    else
      var p := s[..|s| - 1];
      assert s == p + [s[|s| - 1]];
      RecentWars(p, now) + (if s[|s| - 1].warDate > now - DayMs then [s[|s| - 1]] else [])
  }

  function Summary(history: seq<TrackedWar>, now: int): WarSummary {
    WarSummary(|history|, |RecentWars(history, now)|, history[..Min(ActiveLimit, |history|)])
  }

  // ---------------------------------------------------------------------------------------------
  // The monitor object

  class WarMonitor {
    const database: Database

    constructor (database: Database)
      ensures this.database == database
    {
      this.database := database;
    }

    /** One polling cycle; it returns the sends it attempted. */
    method CheckForNewWars(upstream: (int, string) -> Fetch, deliver: (int, string) -> Delivery, now: int)
      returns (attempts: seq<SendAttempt>)
      requires database.Valid()
      modifies database`wars
      ensures database.Valid()
      ensures CycleResult(database.wars, attempts)
           == PollingCycle(database.initialized, database.monitored, database.apiKeys, old(database.wars),
                           upstream, deliver, now)
    {
      attempts := [];
      var loaded := database.GetMonitoredAlliances(None);
      if loaded.Failure? {
        return;
      }
      var subs := loaded.value;
      if |subs| == 0 {
        return;
      }
      var users, byUser := GroupBy(subs, UserOf);
      ghost var t0, keys := database.wars, database.apiKeys;
      for i := 0 to |users|
        invariant database.Valid() && database.apiKeys == keys
        invariant database.wars == CheckUsers(t0, users[..i], subs, keys, upstream, now)
      {
        CheckUsersStep(t0, users, i, subs, keys, upstream, now);
        var u := users[i];
        var key := database.GetUserApiKey(u);
        if key.value.Some? && key.value.value != "" {
          CheckUserAlliances(byUser[u], key.value.value, upstream, now);
        }
      }
      assert users[..|users|] == users;
      attempts := SendNewWarNotifications(deliver, now);
    }

    /** The loop over one user's subscriptions, all checked with that user's key. */
    method CheckUserAlliances(subs: seq<MonitoredAlliance>, apiKey: string, upstream: (int, string) -> Fetch,
                              now: int)
      requires database.Valid() && database.initialized
      modifies database`wars
      ensures database.Valid()
      ensures database.wars == CheckSubscriptions(old(database.wars), subs, apiKey, upstream, now)
    {
      ghost var t0 := database.wars;
      for j := 0 to |subs|
        invariant database.Valid()
        invariant database.wars == CheckSubscriptions(t0, subs[..j], apiKey, upstream, now)
      {
        assert subs[..j + 1][..j] == subs[..j];
        CheckAllianceWars(subs[j], apiKey, upstream, now);
      }
      assert subs[..|subs|] == subs;
    }

    /** Fetches one subscription's wars and inserts its defensive ones; a failed fetch is swallowed. */
    method CheckAllianceWars(m: MonitoredAlliance, apiKey: string, upstream: (int, string) -> Fetch, now: int)
      requires database.Valid() && database.initialized
      modifies database`wars
      ensures database.Valid()
      ensures database.wars == CheckAlliance(old(database.wars), m, apiKey, upstream, now)
    {
      var fetched := upstream(m.allianceId, apiKey);
      if fetched.FetchFailed? {
        return;
      }
      var defensive := DefensiveWars(fetched.wars, m.allianceId);
      ghost var t0 := database.wars;
      for i := 0 to |defensive|
        invariant database.Valid()
        invariant database.wars == TrackWars(t0, defensive[..i], m.allianceId, now)
      {
        assert defensive[..i + 1][..i] == defensive[..i];
        var w := defensive[i];
        var written := database.AddTrackedWar(w.id, m.allianceId, w.attacker.nationName, w.defender.nationName,
                                              w.date, now);
      }
      assert defensive[..|defensive|] == defensive;
    }

    /**
     * Reloads the unnotified wars, groups them by alliance and alerts each group. With no
     * unnotified war there is no alliance to group, so the loop does nothing.
     */
    method SendNewWarNotifications(deliver: (int, string) -> Delivery, now: int) returns (sent: seq<SendAttempt>)
      requires database.Valid() && database.initialized
      modifies database`wars
      ensures database.Valid()
      ensures var unnotified := UnnotifiedWars(old(database.wars));
        var alliances := Keys(unnotified, AllianceOf);
        && database.wars == NotifyTable(old(database.wars), unnotified, alliances, database.monitored)
        && sent == NotifyAttempts(unnotified, alliances, database.monitored, deliver, now)
    {
      ghost var t0, subs := database.wars, database.monitored;
      sent := [];
      var loaded := database.GetUnnotifiedWars();
      var unnotified := loaded.value;
      var alliances, byAlliance := GroupBy(unnotified, AllianceOf);
      for i := 0 to |alliances|
        invariant database.Valid() && database.monitored == subs
        invariant database.wars == NotifyTable(t0, unnotified, alliances[..i], subs)
        invariant sent == NotifyAttempts(unnotified, alliances[..i], subs, deliver, now)
      {
        NotifyStep(t0, unnotified, alliances, i, subs, deliver, now);
        var a := alliances[i];
        var more := SendAllianceWarNotifications(a, byAlliance[a], deliver, now);
        sent := sent + more;
      }
      assert alliances[..|alliances|] == alliances;
    }

    /** Sends one alert to every channel monitoring the alliance, then marks the whole group notified. */
    method SendAllianceWarNotifications(allianceId: int, wars: seq<TrackedWar>, deliver: (int, string) -> Delivery,
                                        now: int) returns (sent: seq<SendAttempt>)
      requires database.Valid() && database.initialized
      modifies database`wars
      ensures database.Valid()
      ensures database.wars == AllianceMarks(old(database.wars), allianceId, wars, database.monitored)
      ensures sent == AllianceAttempts(allianceId, wars, database.monitored, deliver, now)
    {
      sent := [];
      var loaded := database.GetMonitoredAlliances(None);
      var monitors := Monitors(loaded.value, allianceId);
      if monitors == [] {
        return;
      }
      var embed := WarAlert(allianceId, wars, now);
      sent := SendToChannels(allianceId, embed, monitors, deliver);
      MarkNotified(wars);
    }

    /** The loop that marks every war of an alerted group, one `markWarAsNotified` each. */
    method MarkNotified(wars: seq<TrackedWar>)
      requires database.Valid() && database.initialized
      modifies database`wars
      ensures database.Valid()
      ensures database.wars == MarkAll(old(database.wars), wars)
    {
      ghost var t0 := database.wars;
      for j := 0 to |wars|
        invariant database.Valid()
        invariant database.wars == MarkAll(t0, wars[..j])
      {
        MarkAllStep(t0, wars, j);
        var written := database.MarkWarAsNotified(wars[j].warId);
      }
      assert wars[..|wars|] == wars;
    }

    /**
     * `getWarSummary`, with the clock passed in: of the alliance's history (at most 50 rows,
     * newest first) it reports the count, how many started within the last day, and the five
     * newest rows.
     */
    method GetWarSummary(allianceId: int, now: int) returns (r: Result<WarSummary>)
      ensures r.Success? <==> database.initialized
      ensures r.Failure? ==> r.error == NotInitialized
      ensures r.Success? ==> r.value == Summary(AllianceHistory(database.wars, allianceId), now)
      ensures r.Success? ==> 0 <= r.value.recent <= r.value.total <= HistoryLimit
      ensures r.Success? ==> |r.value.active| <= ActiveLimit && SortedDesc(r.value.active)
      ensures r.Success? ==> forall w :: w in r.value.active ==> w in database.wars && w.allianceId == allianceId
    {
      var history := database.GetTrackedWarsForAlliance(allianceId);
      if history.Failure? {
        return Failure(history.error);
      }
      var all := history.value;
      var recent := RecentWars(all, now);
      var active := all[..Min(ActiveLimit, |all|)];
      assert forall w :: w in active ==> w in all;
      r := Success(WarSummary(|all|, |recent|, active));
    }
  }
}

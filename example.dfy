/**
 * A worked cycle: alliance 10523 is monitored by one subscription (guild "G", channel "C",
 * user "U" whose stored key is "key"), and upstream reports one war, "war1", declared by the
 * nation "Enemy" on the nation "Nation Beta" of that alliance.
 */
module CycleExample {
  import opened Wrappers
  import opened Decimal
  import opened Grouping
  import opened Store
  import opened Alert
  import opened Monitor

  function ExampleSub(created: int): MonitoredAlliance {
    MonitoredAlliance(10523, "G", "C", "U", created)
  }

  function ExampleWar(date: int): War {
    War("war1", date, Side("1", "Enemy", None), Side("2", "Nation Beta", Some(AllianceRef("10523", "Valinor"))), 5)
  }

  function ExampleRow(date: int, now: int): TrackedWar {
    TrackedWar("war1", 10523, "Enemy", "Nation Beta", date, false, now)
  }

  /** The war's defender alliance id is the rendering of 10523, so the war is defensive. */
  lemma ExampleDefensive(date: int)
    ensures DefensiveWars([ExampleWar(date)], 10523) == [ExampleWar(date)]
  {
    assert NatToString(1) == "1";
    assert NatToString(10) == "10";
    assert NatToString(105) == "105";
    assert NatToString(1052) == "1052";
    assert NatToString(10523) == "10523";
  }

  lemma ExampleTrackWars(date: int, now: int)
    ensures TrackWars([], [ExampleWar(date)], 10523, now) == [ExampleRow(date, now)]
  {
    assert [ExampleWar(date)][..0] == [];
    assert !Tracked([], "war1");
  }

  lemma ExampleCheckSubs(date: int, created: int, now: int, upstream: (int, string) -> Fetch)
    requires upstream(10523, "key") == Fetched([ExampleWar(date)])
    ensures CheckSubscriptions([], [ExampleSub(created)], "key", upstream, now) == [ExampleRow(date, now)]
  {
    ExampleDefensive(date);
    ExampleTrackWars(date, now);
    assert [ExampleSub(created)][..0] == [];
  }

  lemma ExampleUsers(created: int)
    ensures Keys([ExampleSub(created)], UserOf) == ["U"]
    ensures Group([ExampleSub(created)], UserOf, "U") == [ExampleSub(created)]
  {
    assert [ExampleSub(created)][..0] == [];
  }

  lemma ExampleTracking(date: int, created: int, now: int, upstream: (int, string) -> Fetch)
    requires upstream(10523, "key") == Fetched([ExampleWar(date)])
    ensures TrackingPhase([], [ExampleSub(created)], map["U" := "key"], upstream, now) == [ExampleRow(date, now)]
  {
    ExampleUsers(created);
    ExampleCheckSubs(date, created, now, upstream);
    var keys := map["U" := "key"];
    assert ["U"][..0] == [];
    assert HasUsableKey(keys, "U") && keys["U"] == "key";
    assert CheckUsers([], ["U"], [ExampleSub(created)], keys, upstream, now)
        == CheckSubscriptions([], [ExampleSub(created)], "key", upstream, now);
  }

  lemma ExampleReload(date: int, now: int)
    ensures UnnotifiedWars([ExampleRow(date, now)]) == [ExampleRow(date, now)]
    ensures Keys([ExampleRow(date, now)], AllianceOf) == [10523]
    ensures Group([ExampleRow(date, now)], AllianceOf, 10523) == [ExampleRow(date, now)]
  {
    var row := ExampleRow(date, now);
    assert [row][1..] == [] && [row][..0] == [];
    assert UnnotifiedRows([row]) == [row];
    assert SortByDateDesc([row]) == InsertByDate(row, []);
  }

  lemma ExampleMarks(date: int, now: int)
    ensures MarkAll([ExampleRow(date, now)], [ExampleRow(date, now)]) == [ExampleRow(date, now).(notified := true)]
  {
    var row := ExampleRow(date, now);
    assert [row][..0] == [];
    assert WithNotified([row], "war1")[0] == row.(notified := true);
  }

  lemma ExampleNotify(date: int, created: int, now: int, deliver: (int, string) -> Delivery)
    ensures var row := ExampleRow(date, now);
      var unnotified := UnnotifiedWars([row]);
      var alliances := Keys(unnotified, AllianceOf);
      && NotifyTable([row], unnotified, alliances, [ExampleSub(created)]) == [row.(notified := true)]
      && NotifyAttempts(unnotified, alliances, [ExampleSub(created)], deliver, now)
         == [SendAttempt(10523, "C", WarAlert(10523, [row], now), deliver(10523, "C"))]
  {
    var sub, row := ExampleSub(created), ExampleRow(date, now);
    ExampleReload(date, now);
    ExampleMarks(date, now);
    assert [sub][1..] == [] && [sub][..0] == [];
    assert Monitors([sub], 10523) == [sub];
    assert [10523][..0] == [];
    var embed := WarAlert(10523, [row], now);
    assert Attempts(10523, embed, [sub], deliver) == [SendAttempt(10523, "C", embed, deliver(10523, "C"))];
    assert AllianceAttempts(10523, [row], [sub], deliver, now) == Attempts(10523, embed, [sub], deliver);
  }

  /**
   * After one cycle on an empty table the war is tracked and notified, and channel "C" got one
   * alert naming the attacker and the defender, whatever the delivery ended in.
   */
  lemma OneWarExample(date: int, created: int, now: int, upstream: (int, string) -> Fetch,
                      deliver: (int, string) -> Delivery)
    requires upstream(10523, "key") == Fetched([ExampleWar(date)])
    ensures var res := PollingCycle(true, [ExampleSub(created)], map["U" := "key"], [], upstream, deliver, now);
      var row := ExampleRow(date, now);
      && res.wars == [row.(notified := true)]
      && res.attempts == [SendAttempt(10523, "C", WarAlert(10523, [row], now), deliver(10523, "C"))]
      && res.attempts[0].embed.fields[0].value == "Enemy"
      && res.attempts[0].embed.fields[1].value == "Nation Beta"
  {
    ExampleTracking(date, created, now, upstream);
    ExampleNotify(date, created, now, deliver);
    AlertForOneWar(10523, ExampleRow(date, now), now);
  }
}

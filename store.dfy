/**
 * The bot's SQLite database: four tables whose behaviour comes from their SQL constraints.
 * Each table is a field of `Database`; the statements the source runs on them are the pure
 * functions below, and the class methods apply them in place.
 */
module Store {
  import opened Wrappers

  /** The message every query rejects with before `initialize` has opened the file. */
  const NotInitialized := "Database not initialized"

  /** One day in milliseconds; timestamps throughout are milliseconds since the epoch. */
  const DayMs: int := 24 * 60 * 60 * 1000

  /** `cleanup` keeps rows created within the last 30 days. */
  const RetentionMs: int := 30 * DayMs

  /** `LIMIT 50` of `getTrackedWarsForAlliance`. */
  const HistoryLimit: nat := 50

  /** A row of `monitored_alliances`: one subscription. Its rowid is its position in the table. */
  datatype MonitoredAlliance = MonitoredAlliance(
    allianceId: int, guildId: string, channelId: string, userId: string, createdAt: int)

  /** A row of `tracked_wars`. Its rowid is its position in the table. */
  datatype TrackedWar = TrackedWar(
    warId: string, allianceId: int, attackerNation: string, defenderNation: string,
    warDate: int, notified: bool, createdAt: int)

  /** A row of `guild_settings`, keyed by guild id. */
  datatype GuildSetting = GuildSetting(channelId: string, updatedAt: int)

  function Min(a: int, b: int): int {
    if a < b then a else b
  }

  // ---------------------------------------------------------------------------------------------
  // user_api_keys (user_id PRIMARY KEY) and guild_settings (guild_id PRIMARY KEY)

  /** `getUserApiKey`: the stored key, or null when the user has no row. */
  function ApiKeyOf(keys: map<string, string>, userId: string): (r: Option<string>)
    ensures r.Some? <==> userId in keys
    ensures r.Some? ==> r.value == keys[userId]
  {
    if userId in keys then Some(keys[userId]) else None
  }

  /** `getNotificationChannel`: `row?.notification_channel_id || null`, so an empty id reads as null. */
  function ChannelOf(settings: map<string, GuildSetting>, guildId: string): (r: Option<string>)
    ensures r.Some? <==> guildId in settings && settings[guildId].channelId != ""
    ensures r.Some? ==> r.value == settings[guildId].channelId
  {
    if guildId in settings && settings[guildId].channelId != "" then Some(settings[guildId].channelId)
    else None
  }

  /** INSERT OR REPLACE on a primary key: a read after a write returns the written key, other users keep theirs. */
  lemma ApiKeyReadAfterWrite(keys: map<string, string>, userId: string, apiKey: string, other: string)
    ensures ApiKeyOf(keys[userId := apiKey], userId) == Some(apiKey)
    ensures other != userId ==> ApiKeyOf(keys[userId := apiKey], other) == ApiKeyOf(keys, other)
  {
  }

  /** The same for guild settings, except that an empty channel id reads back as null. */
  lemma ChannelReadAfterWrite(settings: map<string, GuildSetting>, guildId: string, channelId: string,
                              now: int, other: string)
    ensures ChannelOf(settings[guildId := GuildSetting(channelId, now)], guildId)
         == if channelId == "" then None else Some(channelId)
    ensures other != guildId ==>
      ChannelOf(settings[guildId := GuildSetting(channelId, now)], other) == ChannelOf(settings, other)
  {
  }

  // ---------------------------------------------------------------------------------------------
  // monitored_alliances, UNIQUE(alliance_id, guild_id)

  predicate SamePair(m: MonitoredAlliance, allianceId: int, guildId: string) {
    m.allianceId == allianceId && m.guildId == guildId
  }

  predicate HasPair(t: seq<MonitoredAlliance>, allianceId: int, guildId: string) {
    exists m :: m in t && SamePair(m, allianceId, guildId)
  }

  /** The table's UNIQUE(alliance_id, guild_id) constraint. */
  ghost predicate UniquePairs(t: seq<MonitoredAlliance>) {
    forall i, j :: 0 <= i < j < |t| ==> !SamePair(t[j], t[i].allianceId, t[i].guildId)
  }

  /** `DELETE FROM monitored_alliances WHERE alliance_id = ? AND guild_id = ?`. */
  function WithoutPair(t: seq<MonitoredAlliance>, allianceId: int, guildId: string): (r: seq<MonitoredAlliance>)
    ensures forall m :: m in r <==> m in t && !SamePair(m, allianceId, guildId)
    ensures !HasPair(r, allianceId, guildId)
    ensures |r| <= |t|
  {
    if t == [] then []
    else (if SamePair(t[0], allianceId, guildId) then [] else [t[0]]) + WithoutPair(t[1..], allianceId, guildId)
  }

  /** `INSERT OR REPLACE INTO monitored_alliances`: the conflicting row is deleted and a new row appended. */
  function WithSubscription(t: seq<MonitoredAlliance>, allianceId: int, guildId: string, channelId: string,
                            userId: string, now: int): (r: seq<MonitoredAlliance>)
    ensures HasPair(r, allianceId, guildId)
    ensures forall m :: m in t && !SamePair(m, allianceId, guildId) ==> m in r
  {
    assert SamePair(MonitoredAlliance(allianceId, guildId, channelId, userId, now), allianceId, guildId);
    WithoutPair(t, allianceId, guildId) + [MonitoredAlliance(allianceId, guildId, channelId, userId, now)]
  }

  /** `SELECT * FROM monitored_alliances WHERE guild_id = ?`. */
  function InGuild(t: seq<MonitoredAlliance>, guildId: string): (r: seq<MonitoredAlliance>)
    ensures forall m :: m in r <==> m in t && m.guildId == guildId
  {
    if t == [] then []
    else (if t[0].guildId == guildId then [t[0]] else []) + InGuild(t[1..], guildId)
  }

  /** `getMonitoredAlliances(guildId?)`: `if (guildId)` is false for a missing and for an empty id. */
  function Subscriptions(t: seq<MonitoredAlliance>, guildId: Option<string>): (r: seq<MonitoredAlliance>)
    ensures guildId.Some? && guildId.value != "" ==>
      forall m :: m in r <==> m in t && m.guildId == guildId.value
    ensures guildId.None? || guildId.value == "" ==> r == t
  {
    if guildId.Some? && guildId.value != "" then InGuild(t, guildId.value) else t
  }

  lemma UniquePairsTail(t: seq<MonitoredAlliance>)
    requires t != [] && UniquePairs(t)
    ensures UniquePairs(t[1..]) && !HasPair(t[1..], t[0].allianceId, t[0].guildId)
  {
    forall m | m in t[1..] ensures !SamePair(m, t[0].allianceId, t[0].guildId) {
      var k :| 0 <= k < |t[1..]| && t[1..][k] == m;
      assert t[k + 1] == m;
    }
  }

  lemma UniquePairsCons(m: MonitoredAlliance, t: seq<MonitoredAlliance>)
    requires UniquePairs(t) && !HasPair(t, m.allianceId, m.guildId)
    ensures UniquePairs([m] + t)
  {
    var s := [m] + t;
    forall i, j | 0 <= i < j < |s| ensures !SamePair(s[j], s[i].allianceId, s[i].guildId) {
      if i == 0 {
        assert s[j] in t;
      } else {
        assert s[i] == t[i - 1] && s[j] == t[j - 1];
      }
    }
  }

  /** Deleting rows keeps the pairs unique, and removes at most the one row holding the pair. */
  lemma {:induction false} WithoutPairUnique(t: seq<MonitoredAlliance>, allianceId: int, guildId: string)
    requires UniquePairs(t)
    ensures UniquePairs(WithoutPair(t, allianceId, guildId))
    ensures |WithoutPair(t, allianceId, guildId)| == if HasPair(t, allianceId, guildId) then |t| - 1 else |t|
  {
    if t != [] {
      UniquePairsTail(t);
      var rest := WithoutPair(t[1..], allianceId, guildId);
      WithoutPairUnique(t[1..], allianceId, guildId);
      if SamePair(t[0], allianceId, guildId) {
        assert HasPair(t, allianceId, guildId);
      } else {
        assert !HasPair(rest, t[0].allianceId, t[0].guildId);
        UniquePairsCons(t[0], rest);
        assert HasPair(t, allianceId, guildId) <==> HasPair(t[1..], allianceId, guildId);
      }
    }
  }

  /**
   * Re-adding a pair replaces its row: afterwards exactly one row holds the pair, with the new
   * channel and user, every other row is kept, and the table grows only if the pair was new.
   */
  lemma WithSubscriptionReplaces(t: seq<MonitoredAlliance>, allianceId: int, guildId: string,
                                 channelId: string, userId: string, now: int)
    requires UniquePairs(t)
    ensures var r := WithSubscription(t, allianceId, guildId, channelId, userId, now);
      && UniquePairs(r)
      && r[|r| - 1] == MonitoredAlliance(allianceId, guildId, channelId, userId, now)
      && (forall m :: m in r && SamePair(m, allianceId, guildId) ==> m == r[|r| - 1])
      && (forall m :: !SamePair(m, allianceId, guildId) ==> (m in r <==> m in t))
      && |r| == if HasPair(t, allianceId, guildId) then |t| else |t| + 1
  {
    var w := WithoutPair(t, allianceId, guildId);
    var row := MonitoredAlliance(allianceId, guildId, channelId, userId, now);
    var r := w + [row];
    WithoutPairUnique(t, allianceId, guildId);
    forall i, j | 0 <= i < j < |r| ensures !SamePair(r[j], r[i].allianceId, r[i].guildId) {
      if j == |r| - 1 {
        assert r[i] in w;
      } else {
        assert r[i] == w[i] && r[j] == w[j];
      }
    }
  }

  // ---------------------------------------------------------------------------------------------
  // tracked_wars, UNIQUE(war_id)

  predicate Tracked(t: seq<TrackedWar>, warId: string) {
    exists w :: w in t && w.warId == warId
  }

  /** The table's UNIQUE(war_id) constraint. */
  ghost predicate UniqueWarIds(t: seq<TrackedWar>) {
    forall i, j :: 0 <= i < j < |t| ==> t[i].warId != t[j].warId
  }

  /** The row `addTrackedWar` inserts: `notified` takes its default FALSE, `created_at` the current time. */
  function NewWar(warId: string, allianceId: int, attackerNation: string, defenderNation: string,
                  warDate: int, now: int): TrackedWar
  {
    TrackedWar(warId, allianceId, attackerNation, defenderNation, warDate, false, now)
  }

  /** `INSERT OR IGNORE INTO tracked_wars`: a row whose war id is already present is dropped. */
  function WithWar(t: seq<TrackedWar>, row: TrackedWar): (r: seq<TrackedWar>)
    ensures Tracked(r, row.warId)
    ensures forall w :: w in t ==> w in r
  {
    if Tracked(t, row.warId) then t else t + [row]
  }

  /** `UPDATE tracked_wars SET notified = TRUE WHERE war_id = ?`. */
  function WithNotified(t: seq<TrackedWar>, warId: string): (r: seq<TrackedWar>)
    ensures |r| == |t|
  {
    seq(|t|, i requires 0 <= i < |t| => if t[i].warId == warId then t[i].(notified := true) else t[i])
  }

  /** `WHERE notified = FALSE`. */
  function UnnotifiedRows(t: seq<TrackedWar>): seq<TrackedWar> {
    if t == [] then []
    else (if t[0].notified then [] else [t[0]]) + UnnotifiedRows(t[1..])
  }

  /** Each unnotified row is kept as often as the table holds it; notified rows are dropped. */
  lemma {:induction false} UnnotifiedRowsCount(t: seq<TrackedWar>)
    ensures forall w :: multiset(UnnotifiedRows(t))[w] == if w.notified then 0 else multiset(t)[w]
  {
    if t != [] {
      UnnotifiedRowsCount(t[1..]);
      assert t == [t[0]] + t[1..];
    }
  }

  /** `WHERE alliance_id = ?`. */
  function AllianceRows(t: seq<TrackedWar>, allianceId: int): seq<TrackedWar> {
    if t == [] then []
    else (if t[0].allianceId == allianceId then [t[0]] else []) + AllianceRows(t[1..], allianceId)
  }

  /** Each row of the alliance is kept as often as the table holds it; other rows are dropped. */
  lemma {:induction false} AllianceRowsCount(t: seq<TrackedWar>, allianceId: int)
    ensures forall w :: multiset(AllianceRows(t, allianceId))[w]
                     == if w.allianceId == allianceId then multiset(t)[w] else 0
  {
    if t != [] {
      AllianceRowsCount(t[1..], allianceId);
      assert t == [t[0]] + t[1..];
    }
  }

  /** `DELETE FROM tracked_wars WHERE created_at < datetime("now", "-30 days")`, as the rows it keeps. */
  function Retained(t: seq<TrackedWar>, now: int): (r: seq<TrackedWar>)
    ensures forall w :: w in r <==> w in t && !(w.createdAt < now - RetentionMs)
    ensures UniqueWarIds(t) ==> UniqueWarIds(r)
  {
    if t == [] then []
    else
      var rest := Retained(t[1..], now);
      if t[0].createdAt < now - RetentionMs then rest
      else
        WarIdsTail(t);
        ConsUnique(t[0], rest);
        [t[0]] + rest
  }

  lemma WarIdsTail(t: seq<TrackedWar>)
    requires t != []
    ensures UniqueWarIds(t) ==> UniqueWarIds(t[1..]) && !Tracked(t[1..], t[0].warId)
  {
    if UniqueWarIds(t) {
      forall w | w in t[1..] ensures w.warId != t[0].warId {
        var k :| 0 <= k < |t[1..]| && t[1..][k] == w;
        assert t[k + 1] == w;
      }
    }
  }

  lemma ConsUnique(w: TrackedWar, t: seq<TrackedWar>)
    ensures UniqueWarIds(t) && !Tracked(t, w.warId) ==> UniqueWarIds([w] + t)
  {
    if UniqueWarIds(t) && !Tracked(t, w.warId) {
      var s := [w] + t;
      forall i, j | 0 <= i < j < |s| ensures s[i].warId != s[j].warId {
        if i == 0 {
          assert s[j] in t;
        } else {
          assert s[i] == t[i - 1] && s[j] == t[j - 1];
        }
      }
    }
  }

  /**
   * `addTrackedWar` is idempotent on the war id: a known id leaves the table as it was, flag
   * included; a new id appends exactly one unnotified row. Either way the ids stay unique.
   */
  lemma WithWarIdempotent(t: seq<TrackedWar>, row: TrackedWar)
    requires UniqueWarIds(t)
    ensures Tracked(t, row.warId) ==> WithWar(t, row) == t
    ensures !Tracked(t, row.warId) ==> WithWar(t, row) == t + [row]
    ensures WithWar(WithWar(t, row), row) == WithWar(t, row)
    ensures UniqueWarIds(WithWar(t, row)) && Tracked(WithWar(t, row), row.warId)
    ensures forall id :: Tracked(WithWar(t, row), id) <==> Tracked(t, id) || id == row.warId
  {
    assert row in t + [row];
  }

  /** Marking touches only the rows with that war id and only their flag; a second mark changes nothing. */
  lemma WithNotifiedEffect(t: seq<TrackedWar>, warId: string)
    ensures var r := WithNotified(t, warId);
      && (forall i :: 0 <= i < |t| ==>
            r[i].(notified := t[i].notified) == t[i] && r[i].notified == (t[i].notified || t[i].warId == warId))
      && WithNotified(r, warId) == r
  {
    var r := WithNotified(t, warId);
    assert forall i :: 0 <= i < |t| ==> WithNotified(r, warId)[i] == r[i];
  }

  lemma UnnotifiedMembers(t: seq<TrackedWar>)
    ensures forall w :: w in UnnotifiedRows(t) <==> w in t && !w.notified
  {
    UnnotifiedRowsCount(t);
    forall w ensures w in UnnotifiedRows(t) <==> w in t && !w.notified {
      assert w in UnnotifiedRows(t) <==> w in multiset(UnnotifiedRows(t));
      assert w in t <==> w in multiset(t);
    }
  }

  /** A marked war leaves the unnotified rows, and every other unnotified row stays. */
  lemma WithNotifiedLeavesUnnotified(t: seq<TrackedWar>, warId: string)
    ensures forall w :: w in UnnotifiedRows(WithNotified(t, warId)) <==> w in UnnotifiedRows(t) && w.warId != warId
  {
    var r := WithNotified(t, warId);
    UnnotifiedMembers(r);
    UnnotifiedMembers(t);
    forall w | w in r && !w.notified ensures w in t && w.warId != warId {
      var i :| 0 <= i < |r| && r[i] == w;
      assert t[i] == w;
    }
    forall w | w in t && !w.notified && w.warId != warId ensures w in r {
      var i :| 0 <= i < |t| && t[i] == w;
      assert r[i] == w;
    }
  }

  // ---------------------------------------------------------------------------------------------
  // ORDER BY war_date DESC

  /** Newest first. */
  predicate SortedDesc(s: seq<TrackedWar>) {
    forall i, j :: 0 <= i < j < |s| ==> s[i].warDate >= s[j].warDate
  }

  /** Places `w` after every row at least as new as it, so rows of equal date keep their table order. */
  function InsertByDate(w: TrackedWar, s: seq<TrackedWar>): seq<TrackedWar> {
    if s == [] || s[0].warDate < w.warDate then [w] + s else [s[0]] + InsertByDate(w, s[1..])
  }

  /** Insertion adds exactly `w`. */
  lemma {:induction false} InsertAddsOne(w: TrackedWar, s: seq<TrackedWar>)
    ensures multiset(InsertByDate(w, s)) == multiset(s) + multiset{w}
  {
    if s != [] && s[0].warDate >= w.warDate {
      InsertAddsOne(w, s[1..]);
      assert s == [s[0]] + s[1..];
    }
  }

  predicate NoNewerThan(s: seq<TrackedWar>, date: int) {
    forall i :: 0 <= i < |s| ==> s[i].warDate <= date
  }

  lemma {:induction false} InsertBounded(w: TrackedWar, s: seq<TrackedWar>, date: int)
    requires NoNewerThan(s, date) && w.warDate <= date
    ensures NoNewerThan(InsertByDate(w, s), date)
  {
    if s != [] && s[0].warDate >= w.warDate {
      InsertBounded(w, s[1..], date);
      var r := InsertByDate(w, s);
      assert forall i :: 1 <= i < |r| ==> r[i] == InsertByDate(w, s[1..])[i - 1];
    }
  }

  lemma ConsSorted(x: TrackedWar, s: seq<TrackedWar>)
    requires SortedDesc(s) && NoNewerThan(s, x.warDate)
    ensures SortedDesc([x] + s)
  {
    var r := [x] + s;
    forall i, j | 0 <= i < j < |r| ensures r[i].warDate >= r[j].warDate {
      if i == 0 {
        assert r[j] == s[j - 1];
      } else {
        assert r[i] == s[i - 1] && r[j] == s[j - 1];
      }
    }
  }

  lemma {:induction false} InsertKeepsOrder(w: TrackedWar, s: seq<TrackedWar>)
    requires SortedDesc(s)
    ensures SortedDesc(InsertByDate(w, s))
  {
    if s == [] || s[0].warDate < w.warDate {
      ConsSorted(w, s);
    } else {
      InsertKeepsOrder(w, s[1..]);
      InsertBounded(w, s[1..], s[0].warDate);
      ConsSorted(s[0], InsertByDate(w, s[1..]));
    }
  }

  /** The order of `ORDER BY war_date DESC`, with ties in table order. */
  function SortByDateDesc(s: seq<TrackedWar>): seq<TrackedWar> {
    if s == [] then [] else InsertByDate(s[|s| - 1], SortByDateDesc(s[..|s| - 1]))
  }

  /** The sort is a permutation and leaves the rows newest first. */
  lemma {:induction false} SortByDateDescSpec(s: seq<TrackedWar>)
    ensures multiset(SortByDateDesc(s)) == multiset(s)
    ensures SortedDesc(SortByDateDesc(s))
  {
    if s != [] {
      assert s == s[..|s| - 1] + [s[|s| - 1]];
      SortByDateDescSpec(s[..|s| - 1]);
      InsertAddsOne(s[|s| - 1], SortByDateDesc(s[..|s| - 1]));
      InsertKeepsOrder(s[|s| - 1], SortByDateDesc(s[..|s| - 1]));
    }
  }

  /** `getUnnotifiedWars`. */
  function UnnotifiedWars(t: seq<TrackedWar>): seq<TrackedWar>
  {
    SortByDateDesc(UnnotifiedRows(t))
  }

  /** `getTrackedWarsForAlliance`: the alliance's rows, newest first, at most 50. */
  function AllianceHistory(t: seq<TrackedWar>, allianceId: int): seq<TrackedWar>
  {
    var sorted := SortByDateDesc(AllianceRows(t, allianceId));
    sorted[..Min(HistoryLimit, |sorted|)]
  }

  /** The unnotified rows, each once, newest first. */
  lemma UnnotifiedWarsSpec(t: seq<TrackedWar>)
    ensures var r := UnnotifiedWars(t);
      && SortedDesc(r)
      && (forall w :: multiset(r)[w] == if w.notified then 0 else multiset(t)[w])
      && (forall w :: w in r <==> w in t && !w.notified)
  {
    var r := UnnotifiedWars(t);
    UnnotifiedRowsCount(t);
    SortByDateDescSpec(UnnotifiedRows(t));
    forall w ensures w in r <==> w in t && !w.notified {
      assert w in r <==> w in multiset(r);
      assert w in t <==> w in multiset(t);
    }
  }

  /** The first 50 of a newest-first permutation of `rows`: exactly 50 when there are more, all otherwise. */
  lemma LimitOfSorted(rows: seq<TrackedWar>, sorted: seq<TrackedWar>, r: seq<TrackedWar>)
    requires multiset(sorted) == multiset(rows) && SortedDesc(sorted)
    requires r == sorted[..Min(HistoryLimit, |sorted|)]
    ensures |r| == Min(HistoryLimit, |rows|)
    ensures SortedDesc(r)
    ensures multiset(r) <= multiset(rows)
    ensures |rows| <= HistoryLimit ==> multiset(r) == multiset(rows)
  {
    assert |sorted| == |multiset(sorted)| == |multiset(rows)| == |rows|;
    assert sorted == r + sorted[|r|..];
    assert multiset(sorted) == multiset(r) + multiset(sorted[|r|..]);
  }

  /** Rows taken from `AllianceRows` are rows of the table and of the alliance. */
  lemma FromAllianceRows(t: seq<TrackedWar>, allianceId: int, r: seq<TrackedWar>)
    requires multiset(r) <= multiset(AllianceRows(t, allianceId))
    ensures forall w :: w in r ==> w in t && w.allianceId == allianceId
  {
    AllianceRowsCount(t, allianceId);
    forall w | w in r ensures w in t && w.allianceId == allianceId {
      assert w in multiset(r);
      assert multiset(AllianceRows(t, allianceId))[w] > 0;
    }
  }

  /**
   * Exactly 50 rows of the alliance when it has more, all of them otherwise; none repeated
   * beyond the table's own count, newest first.
   */
  lemma AllianceHistorySpec(t: seq<TrackedWar>, allianceId: int)
    ensures |AllianceHistory(t, allianceId)| == Min(HistoryLimit, |AllianceRows(t, allianceId)|)
    ensures SortedDesc(AllianceHistory(t, allianceId))
    ensures forall w :: w in AllianceHistory(t, allianceId) ==> w in t && w.allianceId == allianceId
    ensures multiset(AllianceHistory(t, allianceId)) <= multiset(AllianceRows(t, allianceId))
    ensures |AllianceRows(t, allianceId)| <= HistoryLimit
            ==> multiset(AllianceHistory(t, allianceId)) == multiset(AllianceRows(t, allianceId))
  {
    var rows := AllianceRows(t, allianceId);
    SortByDateDescSpec(rows);
    LimitOfSorted(rows, SortByDateDesc(rows), AllianceHistory(t, allianceId));
    FromAllianceRows(t, allianceId, AllianceHistory(t, allianceId));
  }

  /** Cutting a newest-first list after `n` rows leaves out only rows no newer than those kept. */
  lemma PrefixIsNewest(sorted: seq<TrackedWar>, n: nat, w: TrackedWar, x: TrackedWar)
    requires SortedDesc(sorted) && n <= |sorted|
    requires multiset(sorted[..n])[w] < multiset(sorted)[w]
    requires x in sorted[..n]
    ensures w.warDate <= x.warDate
  {
    assert sorted == sorted[..n] + sorted[n..];
    assert multiset(sorted) == multiset(sorted[..n]) + multiset(sorted[n..]);
    assert w in multiset(sorted[n..]);
    var j :| 0 <= j < |sorted[n..]| && sorted[n..][j] == w;
    var i :| 0 <= i < n && sorted[..n][i] == x;
    assert sorted[n + j] == w && sorted[i] == x;
  }

  /** Every row of the alliance that the limit leaves out is no newer than any row returned. */
  lemma AllianceHistoryNewest(t: seq<TrackedWar>, allianceId: int, w: TrackedWar, x: TrackedWar)
    requires w in t && w.allianceId == allianceId
    requires multiset(AllianceHistory(t, allianceId))[w] < multiset(t)[w]
    requires x in AllianceHistory(t, allianceId)
    ensures w.warDate <= x.warDate
  {
    var sorted := SortByDateDesc(AllianceRows(t, allianceId));
    AllianceRowsCount(t, allianceId);
    SortByDateDescSpec(AllianceRows(t, allianceId));
    assert multiset(sorted)[w] == multiset(t)[w];
    PrefixIsNewest(sorted, Min(HistoryLimit, |sorted|), w, x);
  }

  /** Retention: a row created 31 days ago is deleted, one created 29 days ago is kept. */
  lemma RetentionExample(w: TrackedWar, now: int)
    ensures w.createdAt == now - 31 * DayMs ==> w !in Retained([w], now)
    ensures w.createdAt == now - 29 * DayMs ==> Retained([w], now) == [w]
  {
    if w.createdAt == now - 29 * DayMs {
      assert w in Retained([w], now);
    }
  }

  // ---------------------------------------------------------------------------------------------

  /**
   * The database object. `db` in the source is null until `initialize` runs; `initialized`
   * stands for `db !== null`, and every query made before it rejects with `NotInitialized`.
   */
  class Database {
    var initialized: bool
    var apiKeys: map<string, string>
    var monitored: seq<MonitoredAlliance>
    var wars: seq<TrackedWar>
    var guildSettings: map<string, GuildSetting>

    /** The two UNIQUE constraints. */
    ghost predicate Valid()
      reads this
    {
      UniquePairs(monitored) && UniqueWarIds(wars)
    }

    constructor ()
      ensures Valid() && !initialized
      ensures apiKeys == map[] && monitored == [] && wars == [] && guildSettings == map[]
    {
      initialized := false;
      apiKeys, monitored, wars, guildSettings := map[], [], [], map[];
    }

    /** Opens the file and creates the tables if they do not exist; existing rows are kept. */
    method Initialize()
      modifies this`initialized
      ensures initialized
    {
      initialized := true;
    }

    method SetUserApiKey(userId: string, apiKey: string) returns (r: Result<()>)
      modifies this`apiKeys
      ensures r == if initialized then Success(()) else Failure(NotInitialized)
      ensures apiKeys == if initialized then old(apiKeys)[userId := apiKey] else old(apiKeys)
    {
      if !initialized {
        return Failure(NotInitialized);
      }
      apiKeys := apiKeys[userId := apiKey];
      r := Success(());
    }

    method GetUserApiKey(userId: string) returns (r: Result<Option<string>>)
      ensures r.Success? <==> initialized
      ensures r.Failure? ==> r.error == NotInitialized
      ensures r.Success? ==> r.value == ApiKeyOf(apiKeys, userId)
    {
      if !initialized {
        return Failure(NotInitialized);
      }
      r := Success(ApiKeyOf(apiKeys, userId));
    }

    method AddMonitoredAlliance(allianceId: int, guildId: string, channelId: string, userId: string, now: int)
      returns (r: Result<()>)
      requires Valid()
      modifies this`monitored
      ensures Valid()
      ensures r == if initialized then Success(()) else Failure(NotInitialized)
      ensures monitored == if initialized then WithSubscription(old(monitored), allianceId, guildId, channelId, userId, now)
                           else old(monitored)
    {
      if !initialized {
        return Failure(NotInitialized);
      }
      WithSubscriptionReplaces(monitored, allianceId, guildId, channelId, userId, now);
      monitored := WithSubscription(monitored, allianceId, guildId, channelId, userId, now);
      r := Success(());
    }

    method RemoveMonitoredAlliance(allianceId: int, guildId: string) returns (r: Result<()>)
      requires Valid()
      modifies this`monitored
      ensures Valid()
      ensures r == if initialized then Success(()) else Failure(NotInitialized)
      ensures monitored == if initialized then WithoutPair(old(monitored), allianceId, guildId) else old(monitored)
    {
      if !initialized {
        return Failure(NotInitialized);
      }
      WithoutPairUnique(monitored, allianceId, guildId);
      monitored := WithoutPair(monitored, allianceId, guildId);
      r := Success(());
    }

    method GetMonitoredAlliances(guildId: Option<string>) returns (r: Result<seq<MonitoredAlliance>>)
      ensures r.Success? <==> initialized
      ensures r.Failure? ==> r.error == NotInitialized
      ensures r.Success? ==> r.value == Subscriptions(monitored, guildId)
    {
      if !initialized {
        return Failure(NotInitialized);
      }
      r := Success(Subscriptions(monitored, guildId));
    }

    method AddTrackedWar(warId: string, allianceId: int, attackerNation: string, defenderNation: string,
                         warDate: int, now: int) returns (r: Result<()>)
      requires Valid()
      modifies this`wars
      ensures Valid()
      ensures r == if initialized then Success(()) else Failure(NotInitialized)
      ensures wars == if initialized
        then WithWar(old(wars), NewWar(warId, allianceId, attackerNation, defenderNation, warDate, now))
        else old(wars)
    {
      if !initialized {
        return Failure(NotInitialized);
      }
      WithWarIdempotent(wars, NewWar(warId, allianceId, attackerNation, defenderNation, warDate, now));
      wars := WithWar(wars, NewWar(warId, allianceId, attackerNation, defenderNation, warDate, now));
      r := Success(());
    }

    method MarkWarAsNotified(warId: string) returns (r: Result<()>)
      requires Valid()
      modifies this`wars
      ensures Valid()
      ensures r == if initialized then Success(()) else Failure(NotInitialized)
      ensures wars == if initialized then WithNotified(old(wars), warId) else old(wars)
    {
      if !initialized {
        return Failure(NotInitialized);
      }
      wars := WithNotified(wars, warId);
      r := Success(());
    }

    method GetUnnotifiedWars() returns (r: Result<seq<TrackedWar>>)
      ensures r.Success? <==> initialized
      ensures r.Failure? ==> r.error == NotInitialized
      ensures r.Success? ==> r.value == UnnotifiedWars(wars)
    {
      if !initialized {
        return Failure(NotInitialized);
      }
      UnnotifiedWarsSpec(wars);
      r := Success(UnnotifiedWars(wars));
    }

    method GetTrackedWarsForAlliance(allianceId: int) returns (r: Result<seq<TrackedWar>>)
      ensures r.Success? <==> initialized
      ensures r.Failure? ==> r.error == NotInitialized
      ensures r.Success? ==> r.value == AllianceHistory(wars, allianceId)
      ensures r.Success? ==> |r.value| <= HistoryLimit && SortedDesc(r.value)
      ensures r.Success? ==> forall w :: w in r.value ==> w in wars && w.allianceId == allianceId
    {
      if !initialized {
        return Failure(NotInitialized);
      }
      AllianceHistorySpec(wars, allianceId);
      r := Success(AllianceHistory(wars, allianceId));
    }

    method Cleanup(now: int) returns (r: Result<()>)
      requires Valid()
      modifies this`wars
      ensures Valid()
      ensures r == if initialized then Success(()) else Failure(NotInitialized)
      ensures wars == if initialized then Retained(old(wars), now) else old(wars)
    {
      if !initialized {
        return Failure(NotInitialized);
      }
      wars := Retained(wars, now);
      r := Success(());
    }

    method SetNotificationChannel(guildId: string, channelId: string, now: int) returns (r: Result<()>)
      modifies this`guildSettings
      ensures r == if initialized then Success(()) else Failure(NotInitialized)
      ensures guildSettings == if initialized then old(guildSettings)[guildId := GuildSetting(channelId, now)]
                               else old(guildSettings)
    {
      if !initialized {
        return Failure(NotInitialized);
      }
      guildSettings := guildSettings[guildId := GuildSetting(channelId, now)];
      r := Success(());
    }

    method GetNotificationChannel(guildId: string) returns (r: Result<Option<string>>)
      ensures r.Success? <==> initialized
      ensures r.Failure? ==> r.error == NotInitialized
      ensures r.Success? ==> r.value == ChannelOf(guildSettings, guildId)
    {
      if !initialized {
        return Failure(NotInitialized);
      }
      r := Success(ChannelOf(guildSettings, guildId));
    }
  }
}

/**
 * The Discord embed `createWarNotificationEmbed` builds for one alliance: a list of name/value
 * fields under a fixed colour, title and description.
 */
module Alert {
  import opened Decimal
  import opened Store

  datatype Field = Field(name: string, value: string, inline: bool)

  datatype Embed = Embed(color: int, title: string, description: string, timestamp: int, fields: seq<Field>)

  const AlertColor := 0xFF0000
  const AlertTitle := "🚨 WAR DECLARATION ALERT"
  /** At most this many wars are listed, to keep the embed under Discord's size limit. */
  const ListLimit: nat := 10
  const MoreSuffix := "\n*...and more*"
  const LinkName := "🔗 Politics and War"

  function Description(allianceId: int): string {
    "**Alliance " + IntToString(allianceId) + "** members are under attack!"
  }

  /** The alliance's public page. */
  function AllianceLink(allianceId: int): string {
    "[Alliance Page](https://politicsandwar.com/alliance/id=" + IntToString(allianceId) + ")"
  }

  function LinkField(allianceId: int): Field {
    Field(LinkName, AllianceLink(allianceId), false)
  }

  /** One bullet of the list: `• **attacker** → **defender**`. */
  function WarLine(w: TrackedWar): string {
    "• **" + w.attackerNation + "** → **" + w.defenderNation + "**"
  }

  function WarLines(wars: seq<TrackedWar>): (ls: seq<string>)
    ensures |ls| == |wars|
    ensures forall i :: 0 <= i < |wars| ==> ls[i] == WarLine(wars[i])
  {
    if wars == [] then [] else WarLines(wars[..|wars| - 1]) + [WarLine(wars[|wars| - 1])]
  }

  /** `lines.join('\n')`. */
  function JoinLines(ls: seq<string>): string {
    if ls == [] then ""
    else if |ls| == 1 then ls[0]
    else JoinLines(ls[..|ls| - 1]) + "\n" + ls[|ls| - 1]
  }

  /** `wars.slice(0, 10)`. */
  function Listed(wars: seq<TrackedWar>): seq<TrackedWar> {
    wars[..Min(ListLimit, |wars|)]
  }

  /** The single field used for several wars: a count of all of them and the first ten as bullets. */
  function WarListField(wars: seq<TrackedWar>): Field {
    Field("⚔️ " + IntToString(|wars|) + " New Wars",
          JoinLines(WarLines(Listed(wars))) + (if |wars| > ListLimit then MoreSuffix else ""),
          false)
  }

  /** The three inline fields used for exactly one war; the start date is rendered from the timestamp. */
  function SingleWarFields(w: TrackedWar): seq<Field> {
    [Field("⚔️ Attacker", w.attackerNation, true),
     Field("🛡️ Defender", w.defenderNation, true),
     Field("📅 War Started", IntToString(w.warDate), true)]
  }

  /** `createWarNotificationEmbed(allianceId, wars)`, stamped with the current time. */
  function WarAlert(allianceId: int, wars: seq<TrackedWar>, now: int): Embed {
    var body := if |wars| == 1 then SingleWarFields(wars[0]) else [WarListField(wars)];
    Embed(AlertColor, AlertTitle, Description(allianceId), now, body + [LinkField(allianceId)])
  }

  predicate EndsWith(s: string, suffix: string) {
    |suffix| <= |s| && s[|s| - |suffix|..] == suffix
  }

  lemma JoinEndsWithLast(ls: seq<string>)
    requires ls != []
    ensures EndsWith(JoinLines(ls), ls[|ls| - 1])
  {
  }

  /** The bullet list never ends like the "...and more" suffix: a bullet ends with `**`. */
  lemma ListNeverEndsWithSuffix(wars: seq<TrackedWar>)
    ensures !EndsWith(JoinLines(WarLines(Listed(wars))), MoreSuffix)
  {
    var ls := WarLines(Listed(wars));
    var v := JoinLines(ls);
    if ls != [] {
      JoinEndsWithLast(ls);
      var last := ls[|ls| - 1];
      assert |last| >= 2 && last[|last| - 2..] == "**";
      assert v[|v| - 2..] == last[|last| - 2..];
      assert v[|v| - 2] == '*' && MoreSuffix[|MoreSuffix| - 2] == 'e';
    }
  }

  /** Every alert ends with a link to `alliance/id=<allianceId>` and has four fields for one war, two otherwise. */
  lemma AlertAlwaysLinks(allianceId: int, wars: seq<TrackedWar>, now: int)
    ensures var e := WarAlert(allianceId, wars, now);
      && |e.fields| == (if |wars| == 1 then 4 else 2)
      && e.fields[|e.fields| - 1].value == "[Alliance Page](https://politicsandwar.com/alliance/id=" + IntToString(allianceId) + ")"
      && e.color == 0xFF0000
  {
  }

  /** One war: the alert names its attacker, its defender and its start, in that order. */
  lemma AlertForOneWar(allianceId: int, w: TrackedWar, now: int)
    ensures var e := WarAlert(allianceId, [w], now);
      && e.fields[0].value == w.attackerNation
      && e.fields[1].value == w.defenderNation
      && e.fields[2].value == IntToString(w.warDate)
  {
  }

  /**
   * Several wars (or none): one field whose name counts all the wars and whose value lists one
   * bullet for each of the first ten, with the "...and more" suffix exactly when there are more than ten.
   */
  lemma AlertForManyWars(allianceId: int, wars: seq<TrackedWar>, now: int)
    requires |wars| != 1
    ensures var f := WarAlert(allianceId, wars, now).fields[0];
      && f.name == "⚔️ " + IntToString(|wars|) + " New Wars"
      && |Listed(wars)| == Min(ListLimit, |wars|) <= ListLimit
      && (forall i :: 0 <= i < |Listed(wars)| ==> WarLines(Listed(wars))[i] == WarLine(wars[i]))
      && (EndsWith(f.value, MoreSuffix) <==> |wars| > ListLimit)
    ensures WarAlert(allianceId, wars, now).fields[0].value
         == JoinLines(seq(Min(ListLimit, |wars|), i requires 0 <= i < Min(ListLimit, |wars|) => WarLine(wars[i])))
            + (if |wars| > ListLimit then MoreSuffix else "")
  {
    assert WarAlert(allianceId, wars, now).fields[0] == WarListField(wars);
    assert WarLines(Listed(wars)) == seq(Min(ListLimit, |wars|), i requires 0 <= i < Min(ListLimit, |wars|) => WarLine(wars[i]));
    MoreOnlyWhenCut(wars);
  }

  /** The list field ends with "...and more" exactly when some wars were cut from it. */
  lemma MoreOnlyWhenCut(wars: seq<TrackedWar>)
    ensures EndsWith(WarListField(wars).value, MoreSuffix) <==> |wars| > ListLimit
  {
    var v := WarListField(wars).value;
    var list := JoinLines(WarLines(Listed(wars)));
    ListNeverEndsWithSuffix(wars);
    if |wars| > ListLimit {
      assert v == list + MoreSuffix;
      assert v[|v| - |MoreSuffix|..] == MoreSuffix;
    } else {
      assert v == list;
    }
  }

  /** When the wars arrive newest first, no war left off the list is newer than one on it. */
  lemma ListedAreNewest(wars: seq<TrackedWar>)
    requires SortedDesc(wars)
    ensures forall i, j :: 0 <= i < |Listed(wars)| <= j < |wars| ==> wars[i].warDate >= wars[j].warDate
  {
  }
}

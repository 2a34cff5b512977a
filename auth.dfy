/**
 * The authorisation decisions of the protected REST handlers: the Bearer header check, the
 * token taken from it, the guild-membership and administrator checks, and the filtering of
 * subscriptions down to the caller's administered guilds. Discord's answer to a token is a
 * parameter: `guildsOf(token)` is the caller's guild list, or `None` when Discord rejects it.
 */
module Auth {
  import opened Wrappers
  import opened Store

  // ---------------------------------------------------------------------------------------------
  // Header and token

  const BearerPrefix := "Bearer "

  /** `authHeader && authHeader.startsWith('Bearer ')`. */
  predicate BearerHeader(header: Option<string>) {
    header.Some? && BearerPrefix <= header.value
  }

  /** JavaScript's `s.split(sep)` for a one-character separator: always at least one field. */
  function Split(s: string, sep: char): (r: seq<string>)
    ensures |r| >= 1
  {
    if s == [] then [""]
    else
      var rest := Split(s[1..], sep);
      if s[0] == sep then [""] + rest else [[s[0]] + rest[0]] + rest[1..]
  }

  /** The first field runs up to the first separator, or to the end when there is none. */
  lemma {:induction false} SplitFirst(s: string, sep: char)
    ensures var f := Split(s, sep)[0];
      && f <= s && sep !in f
      && (|f| == |s| || s[|f|] == sep)
  {
    if s != [] && s[0] != sep {
      SplitFirst(s[1..], sep);
    }
  }

  /** A separator-free prefix and its separator become the first field; the rest splits on its own. */
  lemma {:induction false} SplitAfter(p: string, sep: char, rest: string)
    requires sep !in p
    ensures Split(p + [sep] + rest, sep) == [p] + Split(rest, sep)
  {
    if p == [] {
      assert p + [sep] + rest == [sep] + rest;
    } else {
      var s := p + [sep] + rest;
      assert s[0] == p[0] != sep && s[1..] == p[1..] + [sep] + rest;
      SplitAfter(p[1..], sep, rest);
      assert [p[0]] + p[1..] == p;
    }
  }

  /** `authHeader.split(' ')[1]`. */
  function Token(header: string): string
    requires BearerPrefix <= header
  {
    assert header == "Bearer" + [' '] + header[|BearerPrefix|..];
    SplitAfter("Bearer", ' ', header[|BearerPrefix|..]);
    Split(header, ' ')[1]
  }

  /**
   * The token is what follows "Bearer " up to the next space or the end of the header: it is
   * a space-free prefix of the rest of the header, and nothing but a space can follow it.
   */
  lemma TokenIsSecondField(header: string)
    requires BearerPrefix <= header
    ensures var rest, tok := header[|BearerPrefix|..], Token(header);
      && tok <= rest && ' ' !in tok
      && (|tok| == |rest| || rest[|tok|] == ' ')
  {
    var rest := header[|BearerPrefix|..];
    assert header == "Bearer" + [' '] + rest;
    SplitAfter("Bearer", ' ', rest);
    SplitFirst(rest, ' ');
  }

  // ---------------------------------------------------------------------------------------------
  // Guilds and the administrator test

  /** A guild as Discord lists it for the caller; `permissions` is the parsed permission integer. */
  datatype UserGuild = UserGuild(id: string, owner: bool, permissions: int)

  /** `(BigInt(permissions) & BigInt(0x8)) === BigInt(0x8)`: bit 3 in two's complement, negatives included. */
  predicate HasAdministratorBit(permissions: int) {
    (permissions / 8) % 2 == 1
  }

  predicate IsAdmin(g: UserGuild) {
    g.owner || HasAdministratorBit(g.permissions)
  }

  /** On 64-bit permission words the test is the mask test. */
  lemma AdministratorBitIsMask(permissions: int)
    requires 0 <= permissions < 0x1_0000_0000_0000_0000
    ensures HasAdministratorBit(permissions) <==> (permissions as bv64) & 0x8 == 0x8
  {
  }

  /** `userGuilds.find(g => g.id === guildId)`. */
  function FindGuild(guilds: seq<UserGuild>, guildId: string): (r: Option<UserGuild>)
    ensures r.None? <==> forall g :: g in guilds ==> g.id != guildId
    ensures r.Some? ==> r.value in guilds && r.value.id == guildId
  {
    if guilds == [] then None
    else if guilds[0].id == guildId then Some(guilds[0])
    else FindGuild(guilds[1..], guildId)
  }

  /** `find` answers the first guild with the id. */
  lemma {:induction false} FindGuildFirst(guilds: seq<UserGuild>, guildId: string)
    requires FindGuild(guilds, guildId).Some?
    ensures exists k :: 0 <= k < |guilds| && guilds[k] == FindGuild(guilds, guildId).value
                        && forall j :: 0 <= j < k ==> guilds[j].id != guildId
  {
    if guilds[0].id != guildId {
      FindGuildFirst(guilds[1..], guildId);
      var k :| 0 <= k < |guilds[1..]| && guilds[1..][k] == FindGuild(guilds, guildId).value
               && forall j :: 0 <= j < k ==> guilds[1..][j].id != guildId;
      assert guilds[k + 1] == FindGuild(guilds, guildId).value;
      forall j | 0 <= j < k + 1 ensures guilds[j].id != guildId {
        if j > 0 {
          assert guilds[j] == guilds[1..][j - 1];
        }
      }
    } else {
      assert guilds[0] == FindGuild(guilds, guildId).value;
    }
  }

  /** `userGuilds.filter(isAdmin).map(g => g.id)`. */
  function AdminGuildIds(guilds: seq<UserGuild>): (r: seq<string>)
    ensures forall id :: id in r <==> exists g :: g in guilds && IsAdmin(g) && g.id == id
  {
    if guilds == [] then []
    else
      assert forall g :: g in guilds <==> g == guilds[0] || g in guilds[1..];
      (if IsAdmin(guilds[0]) then [guilds[0].id] else []) + AdminGuildIds(guilds[1..])
  }

  /** `allMonitoring.filter(item => adminGuildIds.includes(item.guild_id))`. */
  function VisibleMonitoring(subs: seq<MonitoredAlliance>, adminIds: seq<string>): seq<MonitoredAlliance> {
    if subs == [] then []
    else (if subs[0].guildId in adminIds then [subs[0]] else []) + VisibleMonitoring(subs[1..], adminIds)
  }

  /** A subscription is shown exactly when its guild is administered by the caller. */
  lemma {:induction false} VisibleMembers(subs: seq<MonitoredAlliance>, adminIds: seq<string>)
    ensures forall m :: m in VisibleMonitoring(subs, adminIds) <==> m in subs && m.guildId in adminIds
  {
    if subs != [] {
      VisibleMembers(subs[1..], adminIds);
      assert subs == [subs[0]] + subs[1..];
    }
  }

  /** The filter keeps the stored order: it distributes over concatenation. */
  lemma {:induction false} VisibleConcat(a: seq<MonitoredAlliance>, b: seq<MonitoredAlliance>, adminIds: seq<string>)
    ensures VisibleMonitoring(a + b, adminIds) == VisibleMonitoring(a, adminIds) + VisibleMonitoring(b, adminIds)
  {
    if a == [] {
      assert a + b == b;
    } else {
      assert (a + b)[1..] == a[1..] + b;
      VisibleConcat(a[1..], b, adminIds);
    }
  }

  /** For a caller administering one guild, the filter is the store's per-guild query. */
  lemma {:induction false} VisibleSingleGuild(subs: seq<MonitoredAlliance>, guildId: string)
    ensures VisibleMonitoring(subs, [guildId]) == InGuild(subs, guildId)
  {
    if subs != [] {
      VisibleSingleGuild(subs[1..], guildId);
    }
  }

  // ---------------------------------------------------------------------------------------------
  // Handler decisions

  const Unauthorized := 401
  const Forbidden := 403
  const NotFound := 404
  const ServerError := 500

  const AuthRequired := "Authentication required"
  const AuthFailed := "Authentication failed"
  const NotMember := "Access denied: You are not a member of this guild"
  const NotAdmin := "Access denied: Administrator permissions required"
  const GuildMissing := "Guild not found or bot not present"
  const ConfigFailed := "Failed to set notification channel"

  /** The JSON answer: a body, or an error status with its message. */
  datatype Reply<T> = Ok(body: T) | Err(status: int, message: string)

  /** A channel of a guild the bot is in. */
  datatype Channel = Channel(id: string, name: string, textBased: bool, dmBased: bool)

  /** Where the shared checks of the channel and configuration handlers end. */
  datatype Access = Admitted(guild: UserGuild) | Denied(status: int, message: string) | DiscordRejected

  /** Header, then Discord's guild list for the token, then membership, then the administrator test. */
  function GuildAccess(header: Option<string>, guildId: string, guildsOf: string -> Option<seq<UserGuild>>): (r: Access)
    ensures !BearerHeader(header) ==> r == Denied(Unauthorized, AuthRequired)
    ensures r.Admitted? ==> r.guild.id == guildId && IsAdmin(r.guild)
    ensures r.Admitted? ==> exists gs :: guildsOf(Token(header.value)) == Some(gs) && r.guild in gs
  {
    if !BearerHeader(header) then Denied(Unauthorized, AuthRequired)
    else
      match guildsOf(Token(header.value))
      case None => DiscordRejected
      case Some(guilds) =>
        match FindGuild(guilds, guildId)
        case None => Denied(Forbidden, NotMember)
        case Some(g) => if IsAdmin(g) then Admitted(g) else Denied(Forbidden, NotAdmin)
  }

  /** `channel.isTextBased() && !channel.isDMBased()`. */
  function TextChannels(cs: seq<Channel>): (r: seq<Channel>)
    ensures forall c :: c in r <==> c in cs && c.textBased && !c.dmBased
  {
    if cs == [] then []
    else
      assert cs == [cs[0]] + cs[1..];
      (if cs[0].textBased && !cs[0].dmBased then [cs[0]] else []) + TextChannels(cs[1..])
  }

  /** `GET /api/bot/channels/:guildId`; `botChannels` holds the channels of each guild the bot is in. */
  function ChannelsReply(header: Option<string>, guildId: string, guildsOf: string -> Option<seq<UserGuild>>,
                         botChannels: map<string, seq<Channel>>): Reply<seq<Channel>>
  {
    match GuildAccess(header, guildId, guildsOf)
    case Denied(status, message) => Err(status, message)
    case DiscordRejected => Err(Unauthorized, AuthFailed)
    case Admitted(_) =>
      if guildId !in botChannels then Err(NotFound, GuildMissing) else Ok(TextChannels(botChannels[guildId]))
  }

  /** `GET /api/bot/monitoring`; `stored` is what `getMonitoredAlliances()` resolves or rejects with. */
  function MonitoringReply(header: Option<string>, guildsOf: string -> Option<seq<UserGuild>>,
                           stored: Result<seq<MonitoredAlliance>>): Reply<seq<MonitoredAlliance>>
  {
    if !BearerHeader(header) then Err(Unauthorized, AuthRequired)
    else
      match guildsOf(Token(header.value))
      case None => Err(Unauthorized, AuthFailed)
      case Some(guilds) =>
        match stored
        case Failure(_) => Err(Unauthorized, AuthFailed)
        case Success(subs) => Ok(VisibleMonitoring(subs, AdminGuildIds(guilds)))
  }

  /** `POST /api/bot/config/channel`: the answer, given whether the database can take the write. */
  function ConfigReply(header: Option<string>, guildId: string, guildsOf: string -> Option<seq<UserGuild>>,
                       initialized: bool): Reply<()>
  {
    match GuildAccess(header, guildId, guildsOf)
    case Denied(status, message) => Err(status, message)
    case DiscordRejected => Err(ServerError, ConfigFailed)
    case Admitted(_) => if initialized then Ok(()) else Err(ServerError, ConfigFailed)
  }

  /** The configuration handler: the notification channel is written only when the answer is a success. */
  method ConfigureChannel(db: Database, header: Option<string>, guildId: string, channelId: string,
                          guildsOf: string -> Option<seq<UserGuild>>, now: int) returns (reply: Reply<()>)
    modifies db`guildSettings
    ensures reply == ConfigReply(header, guildId, guildsOf, db.initialized)
    ensures db.guildSettings == if reply.Ok? then old(db.guildSettings)[guildId := GuildSetting(channelId, now)]
                                else old(db.guildSettings)
  {
    var access := GuildAccess(header, guildId, guildsOf);
    if access.Denied? {
      return Err(access.status, access.message);
    }
    if access.DiscordRejected? {
      return Err(ServerError, ConfigFailed);
    }
    var written := db.SetNotificationChannel(guildId, channelId, now);
    if written.Failure? {
      return Err(ServerError, ConfigFailed);
    }
    reply := Ok(());
  }

  // ---------------------------------------------------------------------------------------------
  // What the guard promises

  /** Without a Bearer header every protected handler answers 401 before anything else. */
  lemma HeaderCheckedFirst(header: Option<string>, guildId: string, guildsOf: string -> Option<seq<UserGuild>>,
                           botChannels: map<string, seq<Channel>>, stored: Result<seq<MonitoredAlliance>>,
                           initialized: bool)
    requires !BearerHeader(header)
    ensures ChannelsReply(header, guildId, guildsOf, botChannels) == Err(Unauthorized, AuthRequired)
    ensures MonitoringReply(header, guildsOf, stored) == Err(Unauthorized, AuthRequired)
    ensures ConfigReply(header, guildId, guildsOf, initialized) == Err(Unauthorized, AuthRequired)
  {
  }

  /** A caller who is not a member of the guild gets 403 from both guild handlers, whatever the admin test says. */
  lemma NonMemberRefused(header: Option<string>, guildId: string, guildsOf: string -> Option<seq<UserGuild>>,
                         botChannels: map<string, seq<Channel>>, initialized: bool)
    requires BearerHeader(header)
    requires guildsOf(Token(header.value)).Some?
    requires forall g :: g in guildsOf(Token(header.value)).value ==> g.id != guildId
    ensures ChannelsReply(header, guildId, guildsOf, botChannels) == Err(Forbidden, NotMember)
    ensures ConfigReply(header, guildId, guildsOf, initialized) == Err(Forbidden, NotMember)
  {
  }

  /** A member of the guild without administrator rights gets 403 "Administrator permissions required" from both. */
  lemma NonAdminRefused(header: Option<string>, guildId: string, guildsOf: string -> Option<seq<UserGuild>>,
                        botChannels: map<string, seq<Channel>>, initialized: bool)
    requires BearerHeader(header)
    requires guildsOf(Token(header.value)).Some?
    requires FindGuild(guildsOf(Token(header.value)).value, guildId).Some?
    requires !IsAdmin(FindGuild(guildsOf(Token(header.value)).value, guildId).value)
    ensures ChannelsReply(header, guildId, guildsOf, botChannels) == Err(Forbidden, NotAdmin)
    ensures ConfigReply(header, guildId, guildsOf, initialized) == Err(Forbidden, NotAdmin)
  {
  }

  /**
   * A channel list or a configuration write is granted only to a caller with a Bearer header
   * whose token Discord accepts and whose first listing of the guild is administered by them.
   */
  lemma GrantedOnlyToAdmins(header: Option<string>, guildId: string, guildsOf: string -> Option<seq<UserGuild>>,
                            botChannels: map<string, seq<Channel>>, initialized: bool)
    requires ChannelsReply(header, guildId, guildsOf, botChannels).Ok? || ConfigReply(header, guildId, guildsOf, initialized).Ok?
    ensures BearerHeader(header)
    ensures var answer := guildsOf(Token(header.value));
      && answer.Some?
      && exists k :: 0 <= k < |answer.value| && answer.value[k].id == guildId && IsAdmin(answer.value[k])
                     && forall j :: 0 <= j < k ==> answer.value[j].id != guildId
  {
    var guilds := guildsOf(Token(header.value)).value;
    FindGuildFirst(guilds, guildId);
  }

  /** The two guild handlers refuse the same requests, with the same status and message. */
  lemma GuardsAgree(header: Option<string>, guildId: string, guildsOf: string -> Option<seq<UserGuild>>,
                    botChannels: map<string, seq<Channel>>, initialized: bool)
    ensures var c, w := ChannelsReply(header, guildId, guildsOf, botChannels), ConfigReply(header, guildId, guildsOf, initialized);
      (c.Err? && c.status == Forbidden) <==> (w.Err? && w.status == Forbidden)
    ensures var c, w := ChannelsReply(header, guildId, guildsOf, botChannels), ConfigReply(header, guildId, guildsOf, initialized);
      c.Err? && c.status == Forbidden ==> c.message == w.message
  {
  }

  /** The monitoring answer lists exactly the subscriptions of guilds the caller administers, in stored order. */
  lemma MonitoringShowsAdminGuilds(header: Option<string>, guildsOf: string -> Option<seq<UserGuild>>,
                                   subs: seq<MonitoredAlliance>)
    requires BearerHeader(header) && guildsOf(Token(header.value)).Some?
    ensures var guilds := guildsOf(Token(header.value)).value;
      var r := MonitoringReply(header, guildsOf, Success(subs));
      && r.Ok?
      && (forall m :: m in r.body <==> m in subs && exists g :: g in guilds && IsAdmin(g) && g.id == m.guildId)
      && (forall a, b :: subs == a + b ==>
            r.body == VisibleMonitoring(a, AdminGuildIds(guilds)) + VisibleMonitoring(b, AdminGuildIds(guilds)))
  {
    var guilds := guildsOf(Token(header.value)).value;
    VisibleMembers(subs, AdminGuildIds(guilds));
    forall a, b | subs == a + b
      ensures VisibleMonitoring(subs, AdminGuildIds(guilds))
           == VisibleMonitoring(a, AdminGuildIds(guilds)) + VisibleMonitoring(b, AdminGuildIds(guilds))
    {
      VisibleConcat(a, b, AdminGuildIds(guilds));
    }
  }

  /** An administrator of the guild asking for the channels of a guild the bot is not in gets 404. */
  lemma BotAbsentNotFound(header: Option<string>, guildId: string, guildsOf: string -> Option<seq<UserGuild>>,
                          botChannels: map<string, seq<Channel>>)
    requires GuildAccess(header, guildId, guildsOf).Admitted? && guildId !in botChannels
    ensures ChannelsReply(header, guildId, guildsOf, botChannels) == Err(NotFound, GuildMissing)
  {
  }
}

/** The music commands of `cogs/music/music_cog.py`, the older cog. Besides
    the voice client each guild has (`guild.voice_client`, what
    `ctx.voice_client` reads), the cog keeps one more reference of its own,
    `self.voice_client`: None until the first connect, then the client that
    connect last opened, whichever guild that was in. `pause`, `resume`,
    `skip` and the guard of `stop` act on that shared reference; `cleanup`
    disconnects the guild's own client. None of these commands calls
    `get_player`, and nothing in the cog assigns the players'
    `voice_client`. Registry, listing and enqueue code is the same as in the
    newer cog and is modelled once, in `Registry` and `MusicCog`. */
module LegacyMusicCog {
  import opened Wrappers
  import Voice
  import Registry

  type GuildId = Registry.GuildId

  /** `clients[g]` is the last client opened in guild g (it stays in the
      map, disconnected, after a disconnect); `shared` names the guild
      whose client `self.voice_client` refers to. */
  datatype LegacyCog = LegacyCog(players: Registry.Players, clients: map<GuildId, Voice.Client>, shared: Option<GuildId>)

  /** The shared reference always names a client the cog opened. */
  predicate Valid(cog: LegacyCog) {
    cog.shared.Some? ==> cog.shared.value in cog.clients
  }

  /** The cog as `__init__` leaves it. */
  const Loaded: LegacyCog := LegacyCog(Registry.Empty, map[], None)

  /** `self.voice_client`. */
  function Shared(cog: LegacyCog): Option<Voice.Client> {
    if cog.shared.Some? && cog.shared.value in cog.clients then Some(cog.clients[cog.shared.value]) else None
  }

  /** `guild.voice_client`: the guild's client while it is connected. */
  function GuildClient(cog: LegacyCog, g: GuildId): Option<Voice.Client> {
    if g in cog.clients && cog.clients[g].IsConnected() then Some(cog.clients[g]) else None
  }

  /** The cog with the shared client replaced by `c`. */
  function WithShared(cog: LegacyCog, c: Option<Voice.Client>): LegacyCog {
    if cog.shared.Some? && c.Some? then cog.(clients := cog.clients[cog.shared.value := c.value]) else cog
  }

  /** `pause`, `resume`, `skip`: the shared guards applied to the cog's
      client; neither the registry nor any other guild's client is
      touched. */
  function Pause(cog: LegacyCog): (r: (LegacyCog, bool))
    ensures r.1 <==> Shared(cog).Some? && Shared(cog).value.IsPlaying()
    ensures r.0.players == cog.players && r.0.shared == cog.shared
    ensures r.1 ==> r.0.clients == cog.clients[cog.shared.value := Shared(cog).value.(status := Voice.Paused)]
    ensures !r.1 ==> r.0 == cog
    ensures Valid(cog) ==> Valid(r.0)
  {
    var g := Voice.Pause(Shared(cog));
    (if g.acted then WithShared(cog, g.client) else cog, g.acted)
  }

  function Resume(cog: LegacyCog): (r: (LegacyCog, bool))
    ensures r.1 <==> Shared(cog).Some? && Shared(cog).value.IsPaused()
    ensures r.0.players == cog.players && r.0.shared == cog.shared
    ensures r.1 ==> r.0.clients == cog.clients[cog.shared.value := Shared(cog).value.(status := Voice.Playing)]
    ensures !r.1 ==> r.0 == cog
    ensures Valid(cog) ==> Valid(r.0)
  {
    var g := Voice.Resume(Shared(cog));
    (if g.acted then WithShared(cog, g.client) else cog, g.acted)
  }

  function Skip(cog: LegacyCog): (r: (LegacyCog, bool))
    ensures r.1 <==> Shared(cog).Some? && Shared(cog).value.IsPlaying()
    ensures r.0.players == cog.players && r.0.shared == cog.shared
    ensures r.1 ==> r.0.clients == cog.clients[cog.shared.value := Shared(cog).value.(status := Voice.Idle)]
    ensures !r.1 ==> r.0 == cog
    ensures Valid(cog) ==> Valid(r.0)
  {
    var g := Voice.Skip(Shared(cog));
    (if g.acted then WithShared(cog, g.client) else cog, g.acted)
  }

  /** `cleanup(guild)`: disconnect the guild's client (a guild without one
      raises `AttributeError`, which is logged and swallowed), then delete
      the guild's player if any. */
  function Cleanup(cog: LegacyCog, g: GuildId): (c: LegacyCog)
    ensures c.players == Registry.Cleanup(cog.players, g) && c.shared == cog.shared
    ensures GuildClient(cog, g).Some? ==> c.clients == cog.clients[g := cog.clients[g].(status := Voice.Disconnected)]
    ensures GuildClient(cog, g).None? ==> c.clients == cog.clients
    ensures GuildClient(c, g).None?
    ensures Valid(cog) ==> Valid(c)
  {
    var clients := if GuildClient(cog, g).Some? then cog.clients[g := cog.clients[g].(status := Voice.Disconnected)] else cog.clients;
    LegacyCog(Registry.Cleanup(cog.players, g), clients, cog.shared)
  }

  /** `stop` is guarded by the cog's shared client being connected; it then
      runs `cleanup` for the command's guild. */
  function Stop(cog: LegacyCog, g: GuildId): (r: (LegacyCog, bool))
    ensures r.1 <==> Shared(cog).Some? && Shared(cog).value.IsConnected()
    ensures r.1 ==> r.0 == Cleanup(cog, g)
    ensures r.1 ==> g !in r.0.players.byGuild && GuildClient(r.0, g).None?
    ensures r.1 ==> forall h | h in cog.clients && h != g :: h in r.0.clients && r.0.clients[h] == cog.clients[h]
    ensures !r.1 ==> r.0 == cog
    ensures Valid(cog) ==> Valid(r.0)
  {
    if Voice.Stop(Shared(cog)).acted then (Cleanup(cog, g), true)
    else (cog, false)
  }

  /** `connect` in guild `g`. A fresh connect (the guild has no connected
      client, or the cog holds none yet) opens a client in `g` and makes it
      the shared one; otherwise the shared client stays or moves, in
      whichever guild it was opened. */
  function Connect(cog: LegacyCog, g: GuildId, channel: Option<Voice.ChannelId>, authorVoice: Option<Voice.ChannelId>): (r: Result<(LegacyCog, Voice.ConnectAction), Voice.CommandError>)
    ensures channel.None? && authorVoice.None? ==> r == Failure(Voice.VoiceConnectionError)
    ensures Voice.Target(channel, authorVoice).Success? ==> r.Success?
    ensures r.Success? ==> r.value.0.players == cog.players
    ensures r.Success? ==> (r.value.1 == Voice.FreshConnect <==> GuildClient(cog, g).None? || Shared(cog).None?)
    ensures r.Success? ==>
              Shared(r.value.0).Some? && Shared(r.value.0).value.channel == Voice.Target(channel, authorVoice).value
    ensures r.Success? && r.value.1 == Voice.FreshConnect ==>
              r.value.0.shared == Some(g) && GuildClient(r.value.0, g) == Some(Voice.Client(Voice.Target(channel, authorVoice).value, Voice.Idle))
    ensures r.Success? && r.value.1 == Voice.StayPut ==> r.value.0 == cog
    ensures r.Success? && r.value.1 == Voice.MoveTo ==> r.value.0.shared == cog.shared
    ensures r.Success? ==> forall h | h in cog.clients && Some(h) != r.value.0.shared :: h in r.value.0.clients && r.value.0.clients[h] == cog.clients[h]
    ensures Valid(cog) && r.Success? ==> Valid(r.value.0)
  {
    match Voice.Target(channel, authorVoice)
    case Failure(e) => Failure(e)
    case Success(target) =>
      var held := Voice.Assigned(Shared(cog));
      var guildConnected := GuildClient(cog, g).Some?;
      Voice.ConnectReachesTarget(guildConnected, held, target);
      var action := Voice.Decide(guildConnected, held, target).value;
      var client := Voice.Apply(held, action, target).value;
      if action == Voice.FreshConnect then
        Success((cog.(clients := cog.clients[g := client], shared := Some(g)), action))
      else if action == Voice.StayPut then Success((cog, action))
      else Success((WithShared(cog, Some(client)), action))
  }

  /** Before any connect the cog holds no client: the first connect, in any
      guild, is a fresh one, and no other command acts. */
  lemma FirstConnectIsFresh(g: GuildId, target: Voice.ChannelId)
    ensures var r := Connect(Loaded, g, Some(target), None);
            && r.Success? && r.value.1 == Voice.FreshConnect
            && Shared(r.value.0) == Some(Voice.Client(target, Voice.Idle)) && r.value.0.shared == Some(g)
    ensures !Pause(Loaded).1 && !Resume(Loaded).1 && !Skip(Loaded).1 && !Stop(Loaded, g).1
  {
    assert Shared(Loaded).None?;
  }

  /** One client serves every guild: connecting in a guild without a
      connected client replaces the client that every guild's `pause`,
      `resume`, `skip` and `stop` act on with a fresh idle one. */
  lemma {:induction false} ConnectReplacesSharedClient(cog: LegacyCog, g: GuildId, target: Voice.ChannelId)
    requires GuildClient(cog, g).None?
    ensures var r := Connect(cog, g, Some(target), None);
            && r.Success? && r.value.0.shared == Some(g)
            && Shared(r.value.0) == Some(Voice.Client(target, Voice.Idle))
            && (Shared(r.value.0).value.IsConnected() && !Shared(r.value.0).value.IsPlaying())
  {
    var held := Voice.Assigned(Shared(cog));
    assert Voice.Decide(false, held, target) == Success(Voice.FreshConnect);
  }

  /** `stop` in a guild other than the one the shared client was opened in
      deregisters that guild's player and disconnects that guild's client,
      but leaves the shared client connected: `pause` (or `skip`) still acts
      on a playing one afterwards. */
  lemma StopLeavesSharedClient(cog: LegacyCog, g: GuildId)
    requires Valid(cog) && cog.shared.Some? && cog.shared.value != g
    requires Shared(cog).Some? && Shared(cog).value.IsPlaying()
    ensures var r := Stop(cog, g);
            && r.1 && g !in r.0.players.byGuild && GuildClient(r.0, g).None?
            && Shared(r.0) == Shared(cog)
            && Pause(r.0).1
  {
    var r := Stop(cog, g);
    assert r.0.clients[cog.shared.value] == cog.clients[cog.shared.value];
  }
}

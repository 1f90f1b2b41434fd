/** The music commands of `bot/cogs/music/music_cog.py`, where each player
    holds its own voice client. Every command first calls `get_player`, so
    it registers a player for the guild if there was none. Reading the
    player's `voice_client` before `connect` assigned it raises
    `AttributeError`, because `MusicPlayer` declares the slot without
    assigning it. The guild's voice client that `cleanup` disconnects is
    taken to be the one the guild's player holds. */
module MusicCog {
  import opened Wrappers
  import Voice
  import Registry
  import Scheduler
  import Resolver
  import Text

  /** The registry, and the voice client each player's slot holds; a player
      missing from `voice` has an unassigned slot. */
  datatype Cog = Cog(players: Registry.Players, voice: map<Registry.PlayerRef, Voice.Client>)

  /** Only a constructed player can hold a client: every slot that was
      assigned belongs to an instance the registry already handed out. */
  predicate Valid(cog: Cog) {
    && Registry.Valid(cog.players)
    && forall r | r in cog.voice :: r < cog.players.created
  }

  datatype Reply = Acted | Ignored | Raised(error: Voice.CommandError)

  /** The cog after a command, and what the command did. */
  datatype Outcome = Outcome(cog: Cog, reply: Reply)

  function SlotOf(cog: Cog, player: Registry.PlayerRef): Voice.Slot {
    if player in cog.voice then Voice.Assigned(Some(cog.voice[player])) else Voice.Unset
  }

  /** `get_player` on the cog's registry. */
  function Lookup(cog: Cog, g: Registry.GuildId): (c: (Registry.PlayerRef, Cog))
    ensures c.1.voice == cog.voice
    ensures c.1.players == Registry.GetPlayer(cog.players, g).players
  {
    var l := Registry.GetPlayer(cog.players, g);
    (l.player, cog.(players := l.players))
  }

  datatype GuardedCommand = PauseCommand | ResumeCommand | SkipCommand

  function RunGuard(command: GuardedCommand, c: Option<Voice.Client>): Voice.Guarded {
    match command
    case PauseCommand => Voice.Pause(c)
    case ResumeCommand => Voice.Resume(c)
    case SkipCommand => Voice.Skip(c)
  }

  /** `player = self.get_player(ctx)` followed by the command's guard on
      `player.voice_client`. */
  function Guarded(cog: Cog, g: Registry.GuildId, command: GuardedCommand): (o: Outcome)
    ensures o.cog.players == Registry.GetPlayer(cog.players, g).players
    ensures var p := Registry.GetPlayer(cog.players, g).player;
            && (o.reply.Raised? <==> p !in cog.voice)
            && (o.reply.Raised? ==> o.reply.error == Voice.AttributeError)
            && (o.reply == Acted <==> p in cog.voice && RunGuard(command, Some(cog.voice[p])).acted)
            && (o.reply == Acted ==> o.cog.voice == cog.voice[p := RunGuard(command, Some(cog.voice[p])).client.value])
            && (o.reply != Acted ==> o.cog.voice == cog.voice)
    ensures Valid(cog) ==> Valid(o.cog)
  {
    var (p, c) := Lookup(cog, g);
    if p !in c.voice then Outcome(c, Raised(Voice.AttributeError))
    else
      var r := RunGuard(command, Some(c.voice[p]));
      if r.acted then Outcome(c.(voice := c.voice[p := r.client.value]), Acted)
      else Outcome(c, Ignored)
  }

  /** The client the guild's player holds, if its slot is assigned. */
  function PlayerClient(cog: Cog, g: Registry.GuildId): Option<Voice.Client> {
    var p := Registry.GetPlayer(cog.players, g).player;
    if p in cog.voice then Some(cog.voice[p]) else None
  }

  /** `pause` acts exactly when the player's client is playing. */
  function Pause(cog: Cog, g: Registry.GuildId): (o: Outcome)
    ensures Valid(cog) ==> Valid(o.cog)
    ensures o.reply == Acted <==> PlayerClient(cog, g).Some? && PlayerClient(cog, g).value.IsPlaying()
    ensures o.reply == Acted ==> PlayerClient(o.cog, g) == Some(PlayerClient(cog, g).value.(status := Voice.Paused))
  {
    Guarded(cog, g, PauseCommand)
  }

  /** `resume` acts exactly when the player's client is paused. */
  function Resume(cog: Cog, g: Registry.GuildId): (o: Outcome)
    ensures Valid(cog) ==> Valid(o.cog)
    ensures o.reply == Acted <==> PlayerClient(cog, g).Some? && PlayerClient(cog, g).value.IsPaused()
    ensures o.reply == Acted ==> PlayerClient(o.cog, g) == Some(PlayerClient(cog, g).value.(status := Voice.Playing))
  {
    Guarded(cog, g, ResumeCommand)
  }

  /** `skip` stops the current item exactly when the player's client is
      playing; the transport then calls the item's `after` callback. */
  function Skip(cog: Cog, g: Registry.GuildId): (o: Outcome)
    ensures Valid(cog) ==> Valid(o.cog)
    ensures o.reply == Acted <==> PlayerClient(cog, g).Some? && PlayerClient(cog, g).value.IsPlaying()
    ensures o.reply == Acted ==> PlayerClient(o.cog, g) == Some(PlayerClient(cog, g).value.(status := Voice.Idle))
  {
    Guarded(cog, g, SkipCommand)
  }

  /** `cleanup(guild)`: disconnect the guild's voice client if there is one
      (the `AttributeError` of a missing one is swallowed), then delete the
      guild's player (the `KeyError` of a missing one is swallowed). This is
      also what a player's `destroy` task runs. */
  function Cleanup(cog: Cog, g: Registry.GuildId): (c: Cog)
    ensures c.players == Registry.Cleanup(cog.players, g)
    ensures g in cog.players.byGuild && cog.players.byGuild[g] in cog.voice ==>
              c.voice == cog.voice[cog.players.byGuild[g] := cog.voice[cog.players.byGuild[g]].(status := Voice.Disconnected)]
    ensures g !in cog.players.byGuild ==> c == cog
    ensures Valid(cog) ==> Valid(c)
  {
    var voice :=
      if g in cog.players.byGuild && cog.players.byGuild[g] in cog.voice then
        var p := cog.players.byGuild[g];
        cog.voice[p := cog.voice[p].(status := Voice.Disconnected)]
      else cog.voice;
    Cog(Registry.Cleanup(cog.players, g), voice)
  }

  /** `stop` acts exactly when the player's client is connected; it then
      disconnects it and removes the guild's player. */
  function Stop(cog: Cog, g: Registry.GuildId): (o: Outcome)
    ensures o.reply.Raised? <==> PlayerClient(cog, g).None?
    ensures o.reply == Acted <==> PlayerClient(cog, g).Some? && PlayerClient(cog, g).value.IsConnected()
    ensures o.reply == Acted ==> g !in o.cog.players.byGuild
    ensures o.reply == Acted ==>
              var p := Registry.GetPlayer(cog.players, g).player;
              p in o.cog.voice && !o.cog.voice[p].IsConnected()
    ensures o.reply != Acted ==> g in o.cog.players.byGuild
    ensures Valid(cog) ==> Valid(o.cog)
  {
    var (p, c) := Lookup(cog, g);
    if p !in c.voice then Outcome(c, Raised(Voice.AttributeError))
    else if Voice.Stop(Some(c.voice[p])).acted then Outcome(Cleanup(c, g), Acted)
    else Outcome(c, Ignored)
  }

  /** `connect`: resolve the target channel (raising `VoiceConnectionError`
      before anything else when there is none), look up the player, then
      connect afresh, stay, or move. `guildConnected` is whether
      `ctx.voice_client` is set. */
  function Connect(cog: Cog, g: Registry.GuildId, channel: Option<Voice.ChannelId>, authorVoice: Option<Voice.ChannelId>, guildConnected: bool): (o: Outcome)
    ensures channel.None? && authorVoice.None? ==> o == Outcome(cog, Raised(Voice.VoiceConnectionError))
    ensures Voice.Target(channel, authorVoice).Success? ==>
              o.cog.players == Registry.GetPlayer(cog.players, g).players
    ensures Voice.Target(channel, authorVoice).Success? && !guildConnected ==> o.reply == Acted
    ensures Voice.Target(channel, authorVoice).Success? && !guildConnected ==>
              o.cog.voice == cog.voice[Registry.GetPlayer(cog.players, g).player := Voice.Client(Voice.Target(channel, authorVoice).value, Voice.Idle)]
    ensures o.reply == Acted || o.reply == Ignored ==>
              var target := Voice.Target(channel, authorVoice).value;
              PlayerClient(o.cog, g).Some? && PlayerClient(o.cog, g).value.channel == target
    ensures o.reply == Ignored ==> o.cog.voice == cog.voice
    ensures Valid(cog) ==> Valid(o.cog)
  {
    match Voice.Target(channel, authorVoice)
    case Failure(e) => Outcome(cog, Raised(e))
    case Success(target) =>
      var (p, c) := Lookup(cog, g);
      match Voice.Decide(guildConnected, SlotOf(c, p), target)
      case Failure(e) => Outcome(c, Raised(e))
      case Success(action) =>
        Voice.ConnectReachesTarget(guildConnected, SlotOf(c, p), target);
        var client := Voice.Apply(SlotOf(c, p), action, target).value;
        if action == Voice.StayPut then Outcome(c, Ignored)
        else Outcome(c.(voice := c.voice[p := client]), Acted)
  }

  /** In a guild without a player, `get_player` constructs one whose
      `voice_client` was never assigned, so every guarded command and `stop`
      raise `AttributeError`, and the guild is registered afterwards. */
  lemma NewPlayerHasNoClient(cog: Cog, g: Registry.GuildId)
    requires Valid(cog) && g !in cog.players.byGuild
    ensures Pause(cog, g).reply == Raised(Voice.AttributeError)
    ensures Resume(cog, g).reply == Raised(Voice.AttributeError)
    ensures Skip(cog, g).reply == Raised(Voice.AttributeError)
    ensures Stop(cog, g).reply == Raised(Voice.AttributeError)
    ensures g in Stop(cog, g).cog.players.byGuild
  {
    var p := Registry.GetPlayer(cog.players, g).player;
    assert p == cog.players.created && p !in cog.voice;
  }

  /** A second `connect` to the channel just connected to does nothing. */
  lemma ConnectTwiceStays(cog: Cog, g: Registry.GuildId, target: Voice.ChannelId, guildConnected: bool)
    requires Connect(cog, g, Some(target), None, guildConnected).reply == Acted
    ensures var once := Connect(cog, g, Some(target), None, guildConnected).cog;
            Connect(once, g, Some(target), None, true) == Outcome(once, Ignored)
  {
    var once := Connect(cog, g, Some(target), None, guildConnected).cog;
    Registry.GetPlayerTwice(cog.players, g);
    assert Registry.GetPlayer(once.players, g).players == once.players;
  }

  /** The `play` loop: one `queue.put` per yielded source, in yield order. */
  function EnqueueAll(sources: seq<Resolver.AudioSource>): (evs: seq<Scheduler.Event>)
    ensures |evs| == |sources|
    ensures forall i | 0 <= i < |evs| :: evs[i] == Scheduler.Enqueue(sources[i])
  {
    seq(|sources|, i requires 0 <= i < |sources| => Scheduler.Enqueue(sources[i]))
  }

  /** `play` appends every resolved source to the player's queue, in the
      order the resolver yields them, whatever state the player is in; the
      sources yielded before a resolver error are queued too. */
  lemma {:induction false} PlayEnqueuesInOrder(p: Scheduler.Player, sources: seq<Resolver.AudioSource>)
    ensures Scheduler.Run(p, EnqueueAll(sources)) == Some(p.(queue := p.queue + sources))
    decreases |sources|
  {
    if |sources| > 0 {
      var init := sources[..|sources| - 1];
      assert EnqueueAll(sources)[..|sources| - 1] == EnqueueAll(init);
      PlayEnqueuesInOrder(p, init);
      assert p.queue + init + [sources[|sources| - 1]] == p.queue + sources;
    } else {
      assert p.queue + sources == p.queue;
    }
  }

  const ListingHeader: string := "\n**Durchsagenlist**\n"

  /** One listing line, `__{n:01n}__. **{title}**`; the `n` format gives
      plain digits. */
  function ListingLine(n: nat, title: string): string {
    "__" + Text.NatToString(n) + "__. **" + title + "**"
  }

  function ListingLines(titles: seq<string>): (lines: seq<string>)
    ensures |lines| == |titles|
    ensures forall i | 0 <= i < |titles| :: lines[i] == ListingLine(i + 1, titles[i])
  {
    seq(|titles|, i requires 0 <= i < |titles| => ListingLine(i + 1, titles[i]))
  }

  /** The `queue` message: the fixed header, then the lines joined by
      newlines. */
  function QueueListing(titles: seq<string>): (message: string)
    ensures |message| >= |ListingHeader| && message[..|ListingHeader|] == ListingHeader
    ensures |titles| == 0 ==> message == ListingHeader
    ensures |titles| == 1 ==> message == ListingHeader + ListingLine(1, titles[0])
  {
    ListingHeader + Text.Join("\n", ListingLines(titles))
  }

  /** One more queued item adds one line at the end, numbered one past the
      previous last: lines are numbered from 1 in playlist order. */
  lemma ListingGrowsByOneLine(titles: seq<string>, title: string)
    requires |titles| > 0
    ensures QueueListing(titles + [title]) == QueueListing(titles) + "\n" + ListingLine(|titles| + 1, title)
  {
    assert ListingLines(titles + [title]) == ListingLines(titles) + [ListingLine(|titles| + 1, title)];
    Text.JoinSnoc("\n", ListingLines(titles), ListingLine(|titles| + 1, title));
  }

  /** How a source's title is rendered in an f-string: a missing title
      renders as `None`. */
  function TitleText(s: Resolver.AudioSource): string {
    match s.Title()
    case None => "None"
    case Some(Text(t)) => t
    case Some(Number(n)) => Text.IntToString(n)
  }

  function Titles(items: seq<Resolver.AudioSource>): (titles: seq<string>)
    ensures |titles| == |items|
    ensures forall i | 0 <= i < |items| :: titles[i] == TitleText(items[i])
  {
    seq(|items|, i requires 0 <= i < |items| => TitleText(items[i]))
  }
}

/** The newer music cog together with every player loop it started. A
    player's `voice_client` slot is the cog's record for it, so each loop
    reads its slot from the cog. Cog commands that start with `get_player`
    start the loop of a player they construct. A loop's `destroy` task runs
    the cog's `cleanup` for the player's own guild. A player that `cleanup`
    removed from the registry keeps running: nothing cancels its loop. */
module Lifecycle {
  import opened Wrappers
  import Voice
  import Registry
  import Scheduler
  import MusicCog

  type GuildId = Registry.GuildId
  type PlayerRef = Registry.PlayerRef

  /** `loops[r]` is player r's loop; `home[r]` is `MusicPlayer.guild`, the
      guild it was constructed for. */
  datatype Bot = Bot(cog: MusicCog.Cog, loops: map<PlayerRef, Scheduler.Player>, home: map<PlayerRef, GuildId>)

  /** Every constructed player has a running loop and a home guild. */
  predicate Covered(b: Bot) {
    && (forall r | r in b.loops :: r < b.cog.players.created)
    && (forall r: PlayerRef | r < b.cog.players.created :: r in b.loops)
    && b.home.Keys == b.loops.Keys
  }

  /** A registered player is registered under its home guild. */
  predicate AtHome(b: Bot) {
    forall g | g in b.cog.players.byGuild :: b.cog.players.byGuild[g] in b.home && b.home[b.cog.players.byGuild[g]] == g
  }

  /** Each loop satisfies the player invariant and sees the slot the cog
      records for its player. */
  predicate InSync(b: Bot) {
    forall r | r in b.loops :: Scheduler.Inv(b.loops[r]) && b.loops[r].voice == MusicCog.SlotOf(b.cog, r)
  }

  predicate Valid(b: Bot) {
    MusicCog.Valid(b.cog) && Covered(b) && AtHome(b) && InSync(b)
  }

  /** What a valid bot guarantees about one player's loop. */
  predicate Tracks(b: Bot, r: PlayerRef) {
    r in b.loops && r in b.home && Scheduler.Inv(b.loops[r]) && b.loops[r].voice == MusicCog.SlotOf(b.cog, r)
  }

  lemma ValidTracks(b: Bot, r: PlayerRef)
    requires Valid(b) && r in b.loops
    ensures Tracks(b, r)
  {
  }

  /** The cog as its constructor leaves it. */
  const Empty: Bot := Bot(MusicCog.Cog(Registry.Empty, map[]), map[], map[])

  lemma EmptyValid()
    ensures Valid(Empty)
  {
  }

  /** Every loop sees the slot the cog records for its player. */
  function Sync(loops: map<PlayerRef, Scheduler.Player>, c: MusicCog.Cog): (synced: map<PlayerRef, Scheduler.Player>)
    ensures synced.Keys == loops.Keys
    ensures forall r | r in loops :: synced[r] == loops[r].(voice := MusicCog.SlotOf(c, r))
  {
    map r | r in loops :: loops[r].(voice := MusicCog.SlotOf(c, r))
  }

  /** Re-syncing loops that satisfy the player invariant keeps them valid
      and in sync with the new cog. */
  lemma SyncInSync(b: Bot, loops: map<PlayerRef, Scheduler.Player>, c: MusicCog.Cog)
    requires forall r | r in loops :: Scheduler.Inv(loops[r])
    requires b.cog == c && b.loops == Sync(loops, c)
    ensures InSync(b)
  {
    forall r | r in b.loops
      ensures Scheduler.Inv(b.loops[r]) && b.loops[r].voice == MusicCog.SlotOf(c, r)
    {
      Scheduler.InvIgnoresVoice(loops[r], MusicCog.SlotOf(c, r));
    }
  }

  /** The bot after a cog command that began with `get_player` for `g` and
      left the cog as `c`: a player constructed by that call starts its
      loop. */
  function Adopt(b: Bot, g: GuildId, c: MusicCog.Cog): (a: Bot)
    ensures a.cog == c
    ensures Registry.GetPlayer(b.cog.players, g).constructed ==>
              var p := Registry.GetPlayer(b.cog.players, g).player;
              a.loops == Sync(b.loops[p := Scheduler.Init()], c) && a.home == b.home[p := g]
    ensures !Registry.GetPlayer(b.cog.players, g).constructed ==> a.loops == Sync(b.loops, c) && a.home == b.home
  {
    var l := Registry.GetPlayer(b.cog.players, g);
    var loops := if l.constructed then b.loops[l.player := Scheduler.Init()] else b.loops;
    var home := if l.constructed then b.home[l.player := g] else b.home;
    Bot(c, Sync(loops, c), home)
  }

  lemma AdoptValid(b: Bot, g: GuildId, c: MusicCog.Cog)
    requires Valid(b) && MusicCog.Valid(c)
    requires c.players == Registry.GetPlayer(b.cog.players, g).players
             || c.players == Registry.Cleanup(Registry.GetPlayer(b.cog.players, g).players, g)
    ensures Valid(Adopt(b, g, c))
  {
    var l := Registry.GetPlayer(b.cog.players, g);
    var loops := if l.constructed then b.loops[l.player := Scheduler.Init()] else b.loops;
    assert Adopt(b, g, c).loops == Sync(loops, c);
    AdoptCovered(b, g, c);
    AdoptAtHome(b, g, c);
    SyncInSync(Adopt(b, g, c), loops, c);
  }

  lemma AdoptCovered(b: Bot, g: GuildId, c: MusicCog.Cog)
    requires Covered(b) && Registry.Valid(b.cog.players)
    requires c.players.created == Registry.GetPlayer(b.cog.players, g).players.created
    ensures Covered(Adopt(b, g, c))
  {
  }

  lemma AdoptAtHome(b: Bot, g: GuildId, c: MusicCog.Cog)
    requires AtHome(b) && Covered(b) && Registry.Valid(b.cog.players)
    requires c.players == Registry.GetPlayer(b.cog.players, g).players
             || c.players == Registry.Cleanup(Registry.GetPlayer(b.cog.players, g).players, g)
    ensures AtHome(Adopt(b, g, c))
  {
    var l := Registry.GetPlayer(b.cog.players, g);
    var home := if l.constructed then b.home[l.player := g] else b.home;
    assert Adopt(b, g, c).home == home;
    if c.players == l.players {
      LookupAtHome(b, g, l, home);
    } else {
      LookupAtHome(b, g, l, home);
      CleanupAtHome(l.players, c.players, g, home);
    }
  }

  /** After `get_player`, every registered player is registered under its
      home guild. */
  lemma LookupAtHome(b: Bot, g: GuildId, l: Registry.Lookup, home: map<PlayerRef, GuildId>)
    requires AtHome(b) && Covered(b) && Registry.Valid(b.cog.players)
    requires l == Registry.GetPlayer(b.cog.players, g)
    requires home == if l.constructed then b.home[l.player := g] else b.home
    ensures forall h | h in l.players.byGuild :: l.players.byGuild[h] in home && home[l.players.byGuild[h]] == h
  {
    forall h | h in l.players.byGuild
      ensures l.players.byGuild[h] in home && home[l.players.byGuild[h]] == h
    {
      if h != g {
        assert l.players.byGuild[h] == b.cog.players.byGuild[h];
      }
    }
  }

  /** `cleanup` only deregisters, so it keeps every player at home. */
  lemma CleanupAtHome(before: Registry.Players, after: Registry.Players, g: GuildId, home: map<PlayerRef, GuildId>)
    requires after == Registry.Cleanup(before, g)
    requires forall h | h in before.byGuild :: before.byGuild[h] in home && home[before.byGuild[h]] == h
    ensures forall h | h in after.byGuild :: after.byGuild[h] in home && home[after.byGuild[h]] == h
  {
  }

  /** Loops that were running before keep running, re-synced. */
  lemma AdoptKeeps(b: Bot, g: GuildId, c: MusicCog.Cog)
    requires Covered(b)
    ensures forall p | p in b.loops :: p in Adopt(b, g, c).loops && Adopt(b, g, c).loops[p] == b.loops[p].(voice := MusicCog.SlotOf(c, p))
  {
    var l := Registry.GetPlayer(b.cog.players, g);
    assert l.constructed ==> l.player == b.cog.players.created && l.player !in b.loops;
  }

  /** In a guild without a player, the constructed player's loop starts at
      home. */
  lemma AdoptStarts(b: Bot, g: GuildId, c: MusicCog.Cog)
    requires g !in b.cog.players.byGuild
    ensures var p := b.cog.players.created;
            && p in Adopt(b, g, c).loops && p in Adopt(b, g, c).home && Adopt(b, g, c).home[p] == g
            && Adopt(b, g, c).loops[p] == Scheduler.Init().(voice := MusicCog.SlotOf(c, p))
  {
  }

  lemma AdoptStartsIfNew(b: Bot, g: GuildId, c: MusicCog.Cog)
    ensures g !in b.cog.players.byGuild ==>
              var p := b.cog.players.created;
              && p in Adopt(b, g, c).loops && p in Adopt(b, g, c).home && Adopt(b, g, c).home[p] == g
              && Adopt(b, g, c).loops[p] == Scheduler.Init().(voice := MusicCog.SlotOf(c, p))
  {
    if g !in b.cog.players.byGuild {
      AdoptStarts(b, g, c);
    }
  }

  /** The cog's commands. `play` carries the author's voice channel and the
      sources its search yields; `connect` is not a command of its own but
      the first step of `play`. */
  datatype Command =
    | Pause
    | Resume
    | Skip
    | Stop
    | Play(authorVoice: Option<Voice.ChannelId>, sources: seq<Scheduler.Item>)

  /** `ctx.voice_client` is set: the guild's registered player holds a
      connected client. */
  predicate GuildConnected(cog: MusicCog.Cog, g: GuildId) {
    && g in cog.players.byGuild
    && cog.players.byGuild[g] in cog.voice
    && cog.voice[cog.players.byGuild[g]].IsConnected()
  }

  /** Whether the command gets as far as `get_player`: only a `play` that
      must connect, by an author outside any voice channel, raises before
      it. */
  predicate ReachesGetPlayer(cog: MusicCog.Cog, g: GuildId, command: Command) {
    !(command.Play? && !GuildConnected(cog, g) && command.authorVoice.None?)
  }

  /** The command's effect on the cog. `play` connects (to the author's
      channel) only when the guild has no connected client, then looks up
      the player. */
  function CogCommand(cog: MusicCog.Cog, g: GuildId, command: Command): MusicCog.Outcome {
    match command
    case Pause => MusicCog.Pause(cog, g)
    case Resume => MusicCog.Resume(cog, g)
    case Skip => MusicCog.Skip(cog, g)
    case Stop => MusicCog.Stop(cog, g)
    case Play(av, _) =>
      if GuildConnected(cog, g) then MusicCog.Outcome(MusicCog.Lookup(cog, g).1, MusicCog.Acted)
      else MusicCog.Connect(cog, g, None, av, false)
  }

  /** `player.queue.put(source)` for each yielded source, in order, into
      player `p`'s loop. */
  function EnqueueSources(a: Bot, p: PlayerRef, sources: seq<Scheduler.Item>): (a': Bot)
    ensures a'.cog == a.cog && a'.home == a.home && a'.loops.Keys == a.loops.Keys
    ensures p in a.loops ==> Some(a'.loops[p]) == Scheduler.Run(a.loops[p], MusicCog.EnqueueAll(sources))
    ensures p in a.loops ==> a'.loops[p] == a.loops[p].(queue := a.loops[p].queue + sources)
    ensures forall s | s in a.loops && s != p :: a'.loops[s] == a.loops[s]
    ensures Valid(a) ==> Valid(a')
  {
    if p in a.loops then
      MusicCog.PlayEnqueuesInOrder(a.loops[p], sources);
      var a' := a.(loops := a.loops[p := a.loops[p].(queue := a.loops[p].queue + sources)]);
      assert Valid(a) ==> Valid(a') by {
        if Valid(a) {
          EnqueueValid(a, p, sources);
        }
      }
      a'
    else a
  }

  lemma EnqueueValid(a: Bot, p: PlayerRef, sources: seq<Scheduler.Item>)
    requires Valid(a) && p in a.loops
    ensures Valid(a.(loops := a.loops[p := a.loops[p].(queue := a.loops[p].queue + sources)]))
  {
    var q := a.loops[p].(queue := a.loops[p].queue + sources);
    Scheduler.InvIgnoresQueue(a.loops[p], q.queue);
    var a' := a.(loops := a.loops[p := q]);
    assert Covered(a') && AtHome(a');
  }

  /** A cog command in guild `g`: the cog command itself, plus the loop of
      any player its `get_player` constructed, plus, for `play`, the
      sources enqueued on the guild's player. */
  function Exec(b: Bot, g: GuildId, command: Command): (r: (Bot, MusicCog.Reply))
    ensures !ReachesGetPlayer(b.cog, g, command) ==> r == (b, MusicCog.Raised(Voice.VoiceConnectionError))
    ensures ReachesGetPlayer(b.cog, g, command) && !command.Play? ==>
              r == (Adopt(b, g, CogCommand(b.cog, g, command).cog), CogCommand(b.cog, g, command).reply)
    ensures ReachesGetPlayer(b.cog, g, command) && command.Play? ==>
              && r.0 == EnqueueSources(Adopt(b, g, CogCommand(b.cog, g, command).cog), Registry.GetPlayer(b.cog.players, g).player, command.sources)
              && r.1 == MusicCog.Acted
              && GuildConnected(r.0.cog, g)
              && r.0.cog.players.byGuild[g] == Registry.GetPlayer(b.cog.players, g).player
    ensures command.Play? && !GuildConnected(b.cog, g) && command.authorVoice.Some? ==>
              r.0.cog.voice[r.0.cog.players.byGuild[g]] == Voice.Client(command.authorVoice.value, Voice.Idle)
    ensures Valid(b) ==> Valid(r.0)
    ensures Valid(b) ==>
              forall p | p in b.loops && !(command.Play? && p == Registry.GetPlayer(b.cog.players, g).player) ::
                p in r.0.loops && r.0.loops[p] == b.loops[p].(voice := MusicCog.SlotOf(r.0.cog, p))
    ensures Valid(b) && ReachesGetPlayer(b.cog, g, command) && g in b.cog.players.byGuild && command.Play? ==>
              var p := b.cog.players.byGuild[g];
              p in b.loops && p in r.0.loops && r.0.loops[p] == b.loops[p].(voice := MusicCog.SlotOf(r.0.cog, p), queue := b.loops[p].queue + command.sources)
    ensures ReachesGetPlayer(b.cog, g, command) && g !in b.cog.players.byGuild ==>
              var p := b.cog.players.created;
              && p in r.0.loops && p in r.0.home && r.0.home[p] == g
              && r.0.loops[p] == Scheduler.Init().(voice := MusicCog.SlotOf(r.0.cog, p), queue := if command.Play? then command.sources else [])
    ensures Valid(b) && g !in b.cog.players.byGuild && command.Stop? ==>
              r.1 == MusicCog.Raised(Voice.AttributeError) && g in r.0.cog.players.byGuild
  {
    if !ReachesGetPlayer(b.cog, g, command) then
      assert Valid(b) ==> forall p | p in b.loops :: b.loops[p].(voice := MusicCog.SlotOf(b.cog, p)) == b.loops[p];
      (b, MusicCog.Raised(Voice.VoiceConnectionError))
    else if command.Play? then
      ExecPlayLoops(b, g, command);
      ExecPlayAppends(b, g, command);
      ExecPlay(b, g, command)
    else ExecVoice(b, g, command)
  }

  /** `pause`, `resume`, `skip` and `stop`: the cog command, then the loop
      of a player its `get_player` constructed. */
  function ExecVoice(b: Bot, g: GuildId, command: Command): (r: (Bot, MusicCog.Reply))
    requires !command.Play?
    ensures r == (Adopt(b, g, CogCommand(b.cog, g, command).cog), CogCommand(b.cog, g, command).reply)
    ensures Valid(b) ==> Valid(r.0)
    ensures Valid(b) ==> forall p | p in b.loops :: p in r.0.loops && r.0.loops[p] == b.loops[p].(voice := MusicCog.SlotOf(r.0.cog, p))
    ensures g !in b.cog.players.byGuild ==>
              var p := b.cog.players.created;
              && p in r.0.loops && p in r.0.home && r.0.home[p] == g
              && r.0.loops[p] == Scheduler.Init().(voice := MusicCog.SlotOf(r.0.cog, p))
    ensures Valid(b) && g !in b.cog.players.byGuild && command.Stop? ==>
              r.1 == MusicCog.Raised(Voice.AttributeError) && g in r.0.cog.players.byGuild
  {
    var o := CogCommand(b.cog, g, command);
    AdoptCommandValid(b, g, command);
    AdoptKeepsIfValid(b, g, o.cog);
    StopInNewGuild(b, g, command);
    AdoptStartsIfNew(b, g, o.cog);
    (Adopt(b, g, o.cog), o.reply)
  }

  lemma AdoptCommandValid(b: Bot, g: GuildId, command: Command)
    requires command.Play? ==> ReachesGetPlayer(b.cog, g, command)
    ensures Valid(b) ==> Valid(Adopt(b, g, CogCommand(b.cog, g, command).cog))
  {
    var o := CogCommand(b.cog, g, command);
    if Valid(b) {
      if command.Play? {
        PlayConnects(b.cog, g, command);
      }
      assert o.cog.players == Registry.GetPlayer(b.cog.players, g).players
             || o.cog.players == Registry.Cleanup(Registry.GetPlayer(b.cog.players, g).players, g);
      AdoptValid(b, g, o.cog);
    }
  }

  lemma AdoptKeepsIfValid(b: Bot, g: GuildId, c: MusicCog.Cog)
    ensures Valid(b) ==> forall p | p in b.loops :: p in Adopt(b, g, c).loops && Adopt(b, g, c).loops[p] == b.loops[p].(voice := MusicCog.SlotOf(c, p))
  {
    if Valid(b) {
      AdoptKeeps(b, g, c);
    }
  }

  lemma StopInNewGuild(b: Bot, g: GuildId, command: Command)
    ensures Valid(b) && g !in b.cog.players.byGuild && command.Stop? ==>
              var o := CogCommand(b.cog, g, command);
              o.reply == MusicCog.Raised(Voice.AttributeError) && g in o.cog.players.byGuild
  {
    if Valid(b) && g !in b.cog.players.byGuild && command.Stop? {
      MusicCog.NewPlayerHasNoClient(b.cog, g);
    }
  }

  /** `play` past its channel check: `connect` unless the guild is
      connected, `get_player` (starting the loop of a player it
      constructs), then each source enqueued on that player. */
  function ExecPlay(b: Bot, g: GuildId, command: Command): (r: (Bot, MusicCog.Reply))
    requires command.Play? && ReachesGetPlayer(b.cog, g, command)
    ensures r.0 == EnqueueSources(Adopt(b, g, CogCommand(b.cog, g, command).cog), Registry.GetPlayer(b.cog.players, g).player, command.sources)
    ensures r.1 == MusicCog.Acted
    ensures GuildConnected(r.0.cog, g) && r.0.cog.players.byGuild[g] == Registry.GetPlayer(b.cog.players, g).player
    ensures !GuildConnected(b.cog, g) ==> r.0.cog.voice[r.0.cog.players.byGuild[g]] == Voice.Client(command.authorVoice.value, Voice.Idle)
  {
    var o := CogCommand(b.cog, g, command);
    PlayConnects(b.cog, g, command);
    (EnqueueSources(Adopt(b, g, o.cog), Registry.GetPlayer(b.cog.players, g).player, command.sources), MusicCog.Acted)
  }

  /** What `play` does to the loops: the guild's player gets the sources
      appended to its queue (a player `get_player` constructed starts with
      them), every other loop runs on, re-synced, and the bot stays valid. */
  lemma ExecPlayLoops(b: Bot, g: GuildId, command: Command)
    requires command.Play? && ReachesGetPlayer(b.cog, g, command)
    ensures var r := ExecPlay(b, g, command);
            Valid(b) ==> Valid(r.0)
    ensures var r := ExecPlay(b, g, command);
            Valid(b) ==>
              forall p | p in b.loops && p != Registry.GetPlayer(b.cog.players, g).player ::
                p in r.0.loops && r.0.loops[p] == b.loops[p].(voice := MusicCog.SlotOf(r.0.cog, p))
    ensures var r := ExecPlay(b, g, command);
            g !in b.cog.players.byGuild ==>
              var p := b.cog.players.created;
              && p in r.0.loops && p in r.0.home && r.0.home[p] == g
              && r.0.loops[p] == Scheduler.Init().(voice := MusicCog.SlotOf(r.0.cog, p), queue := command.sources)
  {
    var o := CogCommand(b.cog, g, command);
    PlayConnects(b.cog, g, command);
    AdoptCommandValid(b, g, command);
    AdoptKeepsIfValid(b, g, o.cog);
    AdoptStartsIfNew(b, g, o.cog);
  }

  /** `play` in a guild with a player appends the sources to that player's
      queue. */
  lemma ExecPlayAppends(b: Bot, g: GuildId, command: Command)
    requires command.Play? && ReachesGetPlayer(b.cog, g, command)
    ensures var r := ExecPlay(b, g, command);
            Valid(b) && g in b.cog.players.byGuild ==>
              var p := b.cog.players.byGuild[g];
              p in b.loops && p in r.0.loops && r.0.loops[p] == b.loops[p].(voice := MusicCog.SlotOf(r.0.cog, p), queue := b.loops[p].queue + command.sources)
  {
    if Valid(b) && g in b.cog.players.byGuild {
      var p := b.cog.players.byGuild[g];
      var c := CogCommand(b.cog, g, command).cog;
      assert Registry.GetPlayer(b.cog.players, g).player == p && !Registry.GetPlayer(b.cog.players, g).constructed;
      assert p in b.loops;
      var a := Adopt(b, g, c);
      assert a.loops[p] == b.loops[p].(voice := MusicCog.SlotOf(c, p));
      assert ExecPlay(b, g, command).0 == EnqueueSources(a, p, command.sources);
    }
  }

  /** `play`'s `connect`, when it gets past the channel check, leaves the
      guild registered to the player `get_player` returned and connected;
      a fresh connect holds an idle client in the author's channel. */
  lemma PlayConnects(cog: MusicCog.Cog, g: GuildId, command: Command)
    requires command.Play? && ReachesGetPlayer(cog, g, command)
    ensures var o := CogCommand(cog, g, command);
            var p := Registry.GetPlayer(cog.players, g).player;
            && o.reply == MusicCog.Acted
            && o.cog.players == Registry.GetPlayer(cog.players, g).players
            && (MusicCog.Valid(cog) ==> MusicCog.Valid(o.cog))
            && GuildConnected(o.cog, g) && o.cog.players.byGuild[g] == p
            && (!GuildConnected(cog, g) ==> o.cog.voice[p] == Voice.Client(command.authorVoice.value, Voice.Idle))
  {
    var p := Registry.GetPlayer(cog.players, g).player;
    if GuildConnected(cog, g) {
      assert p == cog.players.byGuild[g];
    }
  }

  /** What `destroy` does as written: `cleanup` of the player's guild,
      whichever player is registered there now. */
  function Destroy(cog: MusicCog.Cog, home: GuildId): (c: MusicCog.Cog)
    ensures c == MusicCog.Cleanup(cog, home)
    ensures home !in c.players.byGuild
  {
    MusicCog.Cleanup(cog, home)
  }

  /** The slot holds a client that is still connected. */
  predicate Live(slot: Voice.Slot) {
    slot.Assigned? && slot.client.Some? && slot.client.value.IsConnected()
  }

  /** The voice transport's side of player `r`'s loop event, given the slot
      the loop reads: `play` on a connected client sets it playing, and the
      `after` callback, which fires once the item stopped, leaves a client
      that is still connected idle. Other events leave the clients alone. */
  function Transport(cog: MusicCog.Cog, r: PlayerRef, slot: Voice.Slot, e: Scheduler.Event): (c: MusicCog.Cog)
    ensures c.players == cog.players
    ensures e == Scheduler.DequeueOk && Live(slot) ==> c.voice == cog.voice[r := slot.client.value.(status := Voice.Playing)]
    ensures e.Complete? && Live(slot) ==> c.voice == cog.voice[r := slot.client.value.(status := Voice.Idle)]
    ensures !((e == Scheduler.DequeueOk || e.Complete?) && Live(slot)) ==> c == cog
    ensures MusicCog.Valid(cog) && r < cog.players.created ==> MusicCog.Valid(c)
  {
    if e == Scheduler.DequeueOk && Live(slot) then cog.(voice := cog.voice[r := slot.client.value.(status := Voice.Playing)])
    else if e.Complete? && Live(slot) then cog.(voice := cog.voice[r := slot.client.value.(status := Voice.Idle)])
    else cog
  }

  /** A `destroy` task of the loop finishes with this event. */
  predicate DestroyDone(p: Scheduler.Player, e: Scheduler.Event) {
    e.TaskDone? && e.task in p.tasks && p.tasks[e.task] == Scheduler.Destroy
  }

  /** The cog after player `r`'s loop event: a finishing `destroy` task
      runs `cleanup` of the player's home guild; any other event goes
      through the transport. Either way no player is registered anew. */
  function LoopCog(cog: MusicCog.Cog, r: PlayerRef, home: GuildId, p: Scheduler.Player, e: Scheduler.Event): (c: MusicCog.Cog)
    ensures !DestroyDone(p, e) ==> c == Transport(cog, r, p.voice, e)
    ensures DestroyDone(p, e) ==> c == Destroy(cog, home)
    ensures c.players.created == cog.players.created
    ensures forall h | h in c.players.byGuild :: h in cog.players.byGuild && c.players.byGuild[h] == cog.players.byGuild[h]
    ensures MusicCog.Valid(cog) && r < cog.players.created ==> MusicCog.Valid(c)
  {
    if DestroyDone(p, e) then Destroy(cog, home) else Transport(cog, r, p.voice, e)
  }

  /** One event of player `r`'s loop, together with what the voice
      transport and a finishing `destroy` task do to the cog. `play`'s
      `connect` is the only way a client reaches a slot here, so the loop's
      own `Attach` event does not occur. A `destroy` task is taken to run
      `cleanup` when it finishes. */
  function LoopStep(b: Bot, r: PlayerRef, e: Scheduler.Event): (b': Bot)
    requires r in b.loops && r in b.home && Scheduler.Enabled(b.loops[r], e) && !e.Attach?
    ensures b'.home == b.home
    ensures b'.loops.Keys == b.loops.Keys
    ensures b'.loops[r].(voice := b.loops[r].voice) == Scheduler.Step(b.loops[r], e)
    ensures b'.loops[r].voice == MusicCog.SlotOf(b'.cog, r)
    ensures b'.cog == LoopCog(b.cog, r, b.home[r], b.loops[r], e)
    ensures forall s | s in b.loops && s != r :: b'.loops[s] == b.loops[s].(voice := MusicCog.SlotOf(b'.cog, s))
    ensures Valid(b) ==> Valid(b')
  {
    var q := Scheduler.Step(b.loops[r], e);
    var c := LoopCog(b.cog, r, b.home[r], b.loops[r], e);
    LoopStepValid(b, r, e);
    Bot(c, Sync(b.loops[r := q], c), b.home)
  }

  lemma LoopStepValid(b: Bot, r: PlayerRef, e: Scheduler.Event)
    requires r in b.loops && r in b.home && Scheduler.Enabled(b.loops[r], e)
    ensures var c := LoopCog(b.cog, r, b.home[r], b.loops[r], e);
            Valid(b) ==> Valid(Bot(c, Sync(b.loops[r := Scheduler.Step(b.loops[r], e)], c), b.home))
  {
    if Valid(b) {
      var q := Scheduler.Step(b.loops[r], e);
      var c := LoopCog(b.cog, r, b.home[r], b.loops[r], e);
      assert Scheduler.Inv(q) && MusicCog.Valid(c);
      ResyncValid(b, r, q, c);
    }
  }

  /** Replacing loop `r` by a state satisfying the player invariant and the
      cog by one with the same players or fewer keeps the bot valid, once
      every loop is re-synced. */
  lemma ResyncValid(b: Bot, r: PlayerRef, q: Scheduler.Player, c: MusicCog.Cog)
    requires Valid(b) && r in b.loops && Scheduler.Inv(q) && MusicCog.Valid(c)
    requires c.players.created == b.cog.players.created
    requires forall h | h in c.players.byGuild :: h in b.cog.players.byGuild && c.players.byGuild[h] == b.cog.players.byGuild[h]
    ensures Valid(Bot(c, Sync(b.loops[r := q], c), b.home))
  {
    var loops := b.loops[r := q];
    var b' := Bot(c, Sync(loops, c), b.home);
    TeardownCovered(b, r, q, c);
    TeardownAtHome(b, c, b'.loops);
    ReplacedInv(b, r, q, loops);
    SyncInSync(b', loops, c);
  }

  lemma TeardownCovered(b: Bot, r: PlayerRef, q: Scheduler.Player, c: MusicCog.Cog)
    requires Covered(b) && r in b.loops && c.players.created == b.cog.players.created
    ensures Covered(Bot(c, Sync(b.loops[r := q], c), b.home))
  {
  }

  lemma TeardownAtHome(b: Bot, c: MusicCog.Cog, loops: map<PlayerRef, Scheduler.Player>)
    requires AtHome(b)
    requires forall h | h in c.players.byGuild :: h in b.cog.players.byGuild && c.players.byGuild[h] == b.cog.players.byGuild[h]
    ensures AtHome(Bot(c, loops, b.home))
  {
  }

  lemma ReplacedInv(b: Bot, r: PlayerRef, q: Scheduler.Player, loops: map<PlayerRef, Scheduler.Player>)
    requires InSync(b) && Scheduler.Inv(q) && loops == b.loops[r := q]
    ensures forall s | s in loops :: Scheduler.Inv(loops[s])
  {
  }

  /** A play on a live client is visible to the voice commands: the
      guild's `pause` and `skip` now act on it. */
  lemma PlayMakesPausable(b: Bot, r: PlayerRef)
    requires Tracks(b, r) && Scheduler.Enabled(b.loops[r], Scheduler.DequeueOk)
    requires b.home[r] in b.cog.players.byGuild && b.cog.players.byGuild[b.home[r]] == r
    requires r in b.cog.voice && b.cog.voice[r].IsConnected()
    ensures var b' := LoopStep(b, r, Scheduler.DequeueOk);
            && b'.loops[r].played == b.loops[r].played + [b.loops[r].queue[0]]
            && r in b'.cog.voice && b'.cog.voice[r] == b.cog.voice[r].(status := Voice.Playing)
            && MusicCog.Pause(b'.cog, b.home[r]).reply == MusicCog.Acted
            && MusicCog.Skip(b'.cog, b.home[r]).reply == MusicCog.Acted
  {
    var p := b.loops[r];
    var c := b.cog.voice[r];
    assert p.voice == Voice.Assigned(Some(c)) && Live(p.voice);
    Scheduler.AttachedPlaysHead(p, c);
    var b' := LoopStep(b, r, Scheduler.DequeueOk);
    assert b'.cog == Transport(b.cog, r, p.voice, Scheduler.DequeueOk);
    assert b'.cog.voice[r] == c.(status := Voice.Playing);
    assert Registry.GetPlayer(b'.cog.players, b.home[r]).player == r;
    assert MusicCog.PlayerClient(b'.cog, b.home[r]) == Some(c.(status := Voice.Playing));
  }

  /** Once the item stopped and its `after` callback fired, the client no
      longer plays, so `pause` and `skip` do nothing. */
  lemma CompletionEndsPlaying(b: Bot, r: PlayerRef, error: Option<string>)
    requires Tracks(b, r) && Scheduler.Enabled(b.loops[r], Scheduler.Complete(error))
    requires b.home[r] in b.cog.players.byGuild && b.cog.players.byGuild[b.home[r]] == r
    requires r in b.cog.voice
    ensures var b' := LoopStep(b, r, Scheduler.Complete(error));
            && r in b'.cog.voice && !b'.cog.voice[r].IsPlaying()
            && MusicCog.Pause(b'.cog, b.home[r]).reply == MusicCog.Ignored
            && MusicCog.Skip(b'.cog, b.home[r]).reply == MusicCog.Ignored
  {
    var p := b.loops[r];
    var c := b.cog.voice[r];
    assert p.voice == Voice.Assigned(Some(c));
    var b' := LoopStep(b, r, Scheduler.Complete(error));
    assert b'.cog == Transport(b.cog, r, p.voice, Scheduler.Complete(error));
    assert b'.cog.voice[r] == c.(status := Voice.Idle) || b'.cog.voice[r] == c;
    assert !b'.cog.voice[r].IsPlaying() by {
      if !Live(p.voice) {
        assert !c.IsConnected();
      }
    }
    assert Registry.GetPlayer(b'.cog.players, b.home[r]).player == r;
    assert MusicCog.PlayerClient(b'.cog, b.home[r]) == Some(b'.cog.voice[r]);
  }

  /** A loop whose client `stop` disconnected dies on the next item it
      takes: nothing is played, the cog is untouched, and, the loop having
      crashed, it never times out into a `destroy`. */
  lemma StoppedLoopCrashes(b: Bot, r: PlayerRef)
    requires Tracks(b, r) && Scheduler.Enabled(b.loops[r], Scheduler.DequeueOk)
    requires r in b.cog.voice && !b.cog.voice[r].IsConnected()
    ensures var b' := LoopStep(b, r, Scheduler.DequeueOk);
            && b'.loops[r].phase == Scheduler.Crashed
            && b'.loops[r].played == b.loops[r].played
            && b'.cog == b.cog
            && !Scheduler.Enabled(b'.loops[r], Scheduler.DequeueTimeout(Scheduler.IdleTimeoutSeconds))
  {
    var p := b.loops[r];
    assert p.voice == Voice.Assigned(Some(b.cog.voice[r]));
    Scheduler.DisconnectedClientCrashes(p, b.cog.voice[r]);
  }

  /** A player left idle for the whole timeout tears itself down: after the
      timeout and its `destroy` task, its guild is no longer registered,
      its loop has ended, and, while it was the guild's registered player,
      the client it held is disconnected. */
  lemma IdleTimeoutDeregisters(b: Bot, r: PlayerRef)
    requires Tracks(b, r)
    requires b.loops[r].phase == Scheduler.WaitQueue && |b.loops[r].queue| == 0
    ensures var b1 := LoopStep(b, r, Scheduler.DequeueTimeout(Scheduler.IdleTimeoutSeconds));
            var t := b.loops[r].spawned;
            && Scheduler.Enabled(b1.loops[r], Scheduler.TaskDone(t))
            && var b2 := LoopStep(b1, r, Scheduler.TaskDone(t));
               && b.home[r] !in b2.cog.players.byGuild
               && b2.loops[r].phase == Scheduler.Destroyed
               && (b.home[r] in b.cog.players.byGuild && b.cog.players.byGuild[b.home[r]] == r && r in b.cog.voice ==>
                     r in b2.cog.voice && !b2.cog.voice[r].IsConnected())
  {
    var p := b.loops[r];
    var e := Scheduler.DequeueTimeout(Scheduler.IdleTimeoutSeconds);
    Scheduler.TimeoutSpawnsOneDestroy(p);
    var b1 := LoopStep(b, r, e);
    assert b1.cog == b.cog;
    var t := p.spawned;
    assert b1.loops[r].tasks == Scheduler.Step(p, e).tasks;
    assert b1.loops[r].phase == Scheduler.Destroyed;
    assert DestroyDone(b1.loops[r], Scheduler.TaskDone(t));
    var b2 := LoopStep(b1, r, Scheduler.TaskDone(t));
    assert b2.cog == Destroy(b.cog, b.home[r]);
  }

  /** A destroy task that outlived its player's registration still runs
      `cleanup` for the guild: it deregisters the player now registered
      there and disconnects that player's client, although that player's
      loop goes on running. */
  lemma StaleDestroyHitsSuccessor(b: Bot, r: PlayerRef, t: Scheduler.TaskId)
    requires Valid(b) && r in b.loops && t in b.loops[r].tasks && b.loops[r].tasks[t] == Scheduler.Destroy
    requires b.home[r] in b.cog.players.byGuild && b.cog.players.byGuild[b.home[r]] != r
    ensures var s := b.cog.players.byGuild[b.home[r]];
            var b' := LoopStep(b, r, Scheduler.TaskDone(t));
            && b.home[r] !in b'.cog.players.byGuild
            && s in b'.loops && b'.loops[s].phase == b.loops[s].phase
            && (s in b.cog.voice ==> b'.cog.voice[s] == b.cog.voice[s].(status := Voice.Disconnected))
  {
    var s := b.cog.players.byGuild[b.home[r]];
    assert s in b.home && s in b.loops;
    var b' := LoopStep(b, r, Scheduler.TaskDone(t));
    assert b'.cog == Destroy(b.cog, b.home[r]);
    assert b'.loops[s] == b.loops[s].(voice := MusicCog.SlotOf(b'.cog, s));
  }

  /** The teardown `destroy` evidently intends: `cleanup` only while the
      guild is still registered to this very player. */
  function DestroyOwn(cog: MusicCog.Cog, home: GuildId, r: PlayerRef): (c: MusicCog.Cog)
    ensures home in cog.players.byGuild && cog.players.byGuild[home] == r ==> c == MusicCog.Cleanup(cog, home)
    ensures !(home in cog.players.byGuild && cog.players.byGuild[home] == r) ==> c == cog
    ensures !(home in cog.players.byGuild && cog.players.byGuild[home] != r) ==> c == Destroy(cog, home)
  {
    if home in cog.players.byGuild && cog.players.byGuild[home] == r then MusicCog.Cleanup(cog, home) else cog
  }

  /** With `DestroyOwn`, a player's own teardown still deregisters it, and a
      stale teardown leaves the guild's current player and every client
      alone. */
  lemma DestroyOwnSparesSuccessor(cog: MusicCog.Cog, home: GuildId, r: PlayerRef)
    ensures home in cog.players.byGuild && cog.players.byGuild[home] == r ==>
              home !in DestroyOwn(cog, home, r).players.byGuild
    ensures home in cog.players.byGuild && cog.players.byGuild[home] != r ==>
              DestroyOwn(cog, home, r).players.byGuild[home] == cog.players.byGuild[home]
              && DestroyOwn(cog, home, r).voice == cog.voice
  {
  }

  /** The hazard from the start: `play` one track, which the loop takes
      and plays; `stop`, so the first player's queue is empty when its
      client disconnects and the transport calls `after`; `play` the track
      again in the same guild, which connects a second player (the bot
      `Replay` returns); then the first player's idle timeout and its
      `destroy` task. The second player is deregistered and its client
      disconnected while its loop still holds the track, and the loop dies
      on taking it: the second `play` is never heard. */
  lemma StaleDestroyScenario(g: GuildId, channel: Voice.ChannelId, s: Scheduler.Item)
    ensures var b6 := Replay(g, channel, s);
            && b6.cog.players.byGuild == map[g := 1]
            && 1 in b6.cog.voice && b6.cog.voice[1] == Voice.Client(channel, Voice.Idle)
            && 0 in b6.loops && 0 in b6.home && b6.loops[0].played == [s]
            && Scheduler.Enabled(b6.loops[0], Scheduler.DequeueTimeout(Scheduler.IdleTimeoutSeconds))
            && var b7 := LoopStep(b6, 0, Scheduler.DequeueTimeout(Scheduler.IdleTimeoutSeconds));
               && Scheduler.Enabled(b7.loops[0], Scheduler.TaskDone(2))
               && var b8 := LoopStep(b7, 0, Scheduler.TaskDone(2));
                  && g !in b8.cog.players.byGuild
                  && 1 in b8.cog.voice && b8.cog.voice[1] == Voice.Client(channel, Voice.Disconnected)
                  && 1 in b8.loops && 1 in b8.home
                  && b8.loops[1].phase == Scheduler.WaitQueue && b8.loops[1].queue == [s]
                  && Scheduler.LoopTask in b8.loops[1].tasks
                  && Scheduler.Enabled(b8.loops[1], Scheduler.DequeueOk)
                  && var b9 := LoopStep(b8, 1, Scheduler.DequeueOk);
                     && b9.loops[1].phase == Scheduler.Crashed && b9.loops[1].played == []
  {
    var b6 := Replay(g, channel, s);
    ScenarioStaleTimeout(b6, g, channel, s);
    var b7 := LoopStep(b6, 0, Scheduler.DequeueTimeout(Scheduler.IdleTimeoutSeconds));
    ScenarioStaleDestroy(b7, g, channel, s);
    var b8 := LoopStep(b7, 0, Scheduler.TaskDone(2));
    ScenarioLostTrack(b8, channel, s);
  }

  /** The bot, from the start, after `play` of `s` in guild `g`, player 0's
      loop taking it, `stop`, the transport reporting the end of the track,
      the loop waiting again, and `play` of `s` once more: player 0 has
      played the track and waits on its empty queue, while the new player 1
      is registered and connected, with `s` queued. */
  function Replay(g: GuildId, channel: Voice.ChannelId, s: Scheduler.Item): (b6: Bot)
    ensures b6.cog == Replayed(g, channel)
    ensures 0 in b6.home && b6.home[0] == g && 1 in b6.home
    ensures 0 in b6.loops && b6.loops[0].(voice := Voice.Unset) == Drained(s)
    ensures 1 in b6.loops && b6.loops[1].(voice := Voice.Unset) == Scheduler.Init().(queue := [s])
  {
    var play := Play(Some(channel), [s]);
    ScenarioFirstPlay(g, channel, s);
    var b1 := Exec(Empty, g, play).0;
    ScenarioTake(b1, g, channel, s);
    var b2 := LoopStep(b1, 0, Scheduler.DequeueOk);
    ScenarioStop(b2, g, channel, s);
    var b3 := Exec(b2, g, Stop).0;
    ScenarioDrain(b3, g, channel, s);
    var b4 := LoopStep(b3, 0, Scheduler.Complete(None));
    var b5 := LoopStep(b4, 0, Scheduler.Wake(Scheduler.Cleaned));
    ScenarioReplay(b5, g, channel, s);
    Exec(b5, g, play).0
  }

  /** The state of player 0's loop once it played `s` and the transport
      reported the end of it. */
  function Drained(s: Scheduler.Item): Scheduler.Player {
    Scheduler.Player([], None, false, Scheduler.WaitQueue, map[Scheduler.LoopTask := Scheduler.PlayerLoop, 1 := Scheduler.PresenceReset],
                     2, Voice.Unset, false, [s], [s])
  }

  /** The first `play` in a guild constructs player 0, connects it and
      enqueues the track. */
  lemma ScenarioFirstPlay(g: GuildId, channel: Voice.ChannelId, s: Scheduler.Item)
    ensures var b1 := Exec(Empty, g, Play(Some(channel), [s])).0;
            && b1.cog == MusicCog.Cog(Registry.Players(map[g := 0], 1), map[0 := Voice.Client(channel, Voice.Idle)])
            && 0 in b1.home && b1.home[0] == g
            && 0 in b1.loops && b1.loops[0].(voice := Voice.Unset) == Scheduler.Init().(queue := [s])
            && b1.loops[0].voice == MusicCog.SlotOf(b1.cog, 0)
  {
    var command := Play(Some(channel), [s]);
    var o := MusicCog.Connect(Empty.cog, g, None, Some(channel), false);
    assert Registry.GetPlayer(Empty.cog.players, g) == Registry.Lookup(0, Registry.Players(map[g := 0], 1), true);
    assert ReachesGetPlayer(Empty.cog, g, command) && CogCommand(Empty.cog, g, command) == o;
    assert o.cog == MusicCog.Cog(Registry.Players(map[g := 0], 1), map[0 := Voice.Client(channel, Voice.Idle)]);
  }

  /** Player 0's loop takes the track and the client plays it. */
  lemma ScenarioTake(b1: Bot, g: GuildId, channel: Voice.ChannelId, s: Scheduler.Item)
    requires b1.cog == MusicCog.Cog(Registry.Players(map[g := 0], 1), map[0 := Voice.Client(channel, Voice.Idle)])
    requires 0 in b1.home && b1.home[0] == g
    requires 0 in b1.loops && b1.loops[0].(voice := Voice.Unset) == Scheduler.Init().(queue := [s])
    requires b1.loops[0].voice == MusicCog.SlotOf(b1.cog, 0)
    ensures Scheduler.Enabled(b1.loops[0], Scheduler.DequeueOk)
    ensures var b2 := LoopStep(b1, 0, Scheduler.DequeueOk);
            && b2.cog == MusicCog.Cog(Registry.Players(map[g := 0], 1), map[0 := Voice.Client(channel, Voice.Playing)])
            && b2.home == b1.home
            && b2.loops[0].(voice := Voice.Unset)
               == Scheduler.Init().(current := Some(s), phase := Scheduler.WaitCompletion, awaitingAfter := true, taken := [s], played := [s])
  {
    var p := b1.loops[0];
    var idle := Voice.Client(channel, Voice.Idle);
    assert p.voice == Voice.Assigned(Some(idle));
    TakeHead(p, s, idle);
    assert !DestroyDone(p, Scheduler.DequeueOk);
    TransportPlays(b1.cog, g, channel);
    var b2 := LoopStep(b1, 0, Scheduler.DequeueOk);
    assert b2.loops[0].(voice := Voice.Unset) == Scheduler.Step(p, Scheduler.DequeueOk).(voice := Voice.Unset);
  }

  /** Taking the only queued item on an idle connected client plays it. */
  lemma TakeHead(p: Scheduler.Player, s: Scheduler.Item, idle: Voice.Client)
    requires p.(voice := Voice.Unset) == Scheduler.Init().(queue := [s])
    requires p.voice == Voice.Assigned(Some(idle)) && idle.IsConnected()
    ensures Scheduler.Enabled(p, Scheduler.DequeueOk)
    ensures Scheduler.Step(p, Scheduler.DequeueOk).(voice := Voice.Unset)
            == Scheduler.Init().(current := Some(s), phase := Scheduler.WaitCompletion, awaitingAfter := true, taken := [s], played := [s])
  {
    assert p.queue == [s] && p.queue[1..] == [];
  }

  lemma TransportPlays(cog: MusicCog.Cog, g: GuildId, channel: Voice.ChannelId)
    requires cog == MusicCog.Cog(Registry.Players(map[g := 0], 1), map[0 := Voice.Client(channel, Voice.Idle)])
    ensures Transport(cog, 0, Voice.Assigned(Some(Voice.Client(channel, Voice.Idle))), Scheduler.DequeueOk)
            == MusicCog.Cog(Registry.Players(map[g := 0], 1), map[0 := Voice.Client(channel, Voice.Playing)])
  {
    var playing := Voice.Client(channel, Voice.Playing);
    assert cog.voice[0 := playing] == map[0 := playing];
  }

  /** `stop` tears player 0 down: the guild is deregistered and its client
      disconnected, but its loop stays, waiting for the end of the track. */
  lemma ScenarioStop(b2: Bot, g: GuildId, channel: Voice.ChannelId, s: Scheduler.Item)
    requires b2.cog == MusicCog.Cog(Registry.Players(map[g := 0], 1), map[0 := Voice.Client(channel, Voice.Playing)])
    requires 0 in b2.home && b2.home[0] == g
    requires 0 in b2.loops && b2.loops[0].(voice := Voice.Unset)
               == Scheduler.Init().(current := Some(s), phase := Scheduler.WaitCompletion, awaitingAfter := true, taken := [s], played := [s])
    ensures var b3 := Exec(b2, g, Stop).0;
            && b3.cog == MusicCog.Cog(Registry.Players(map[], 1), map[0 := Voice.Client(channel, Voice.Disconnected)])
            && 0 in b3.home && b3.home[0] == g
            && 0 in b3.loops && b3.loops[0].(voice := Voice.Unset) == b2.loops[0].(voice := Voice.Unset)
            && b3.loops[0].voice == MusicCog.SlotOf(b3.cog, 0)
  {
    var o := MusicCog.Stop(b2.cog, g);
    assert Registry.GetPlayer(b2.cog.players, g) == Registry.Lookup(0, b2.cog.players, false);
    assert o.cog == MusicCog.Cleanup(b2.cog, g);
    assert o.cog.voice == map[0 := Voice.Client(channel, Voice.Disconnected)];
    assert o.cog.players.byGuild == map[];
    assert ReachesGetPlayer(b2.cog, g, Stop) && CogCommand(b2.cog, g, Stop) == o;
    var b3 := Exec(b2, g, Stop).0;
    assert b3 == Adopt(b2, g, o.cog);
    assert b3.loops[0] == b2.loops[0].(voice := MusicCog.SlotOf(b3.cog, 0));
  }

  /** The disconnect ends the track: the transport calls `after`, and the
      loop cleans up and waits on its empty queue again. The client, no
      longer connected, is left as it is. */
  lemma ScenarioDrain(b3: Bot, g: GuildId, channel: Voice.ChannelId, s: Scheduler.Item)
    requires b3.cog == MusicCog.Cog(Registry.Players(map[], 1), map[0 := Voice.Client(channel, Voice.Disconnected)])
    requires 0 in b3.home && b3.home[0] == g
    requires 0 in b3.loops && b3.loops[0].(voice := Voice.Unset)
               == Scheduler.Init().(current := Some(s), phase := Scheduler.WaitCompletion, awaitingAfter := true, taken := [s], played := [s])
    requires b3.loops[0].voice == MusicCog.SlotOf(b3.cog, 0)
    ensures Scheduler.Enabled(b3.loops[0], Scheduler.Complete(None))
    ensures var b4 := LoopStep(b3, 0, Scheduler.Complete(None));
            && Scheduler.Enabled(b4.loops[0], Scheduler.Wake(Scheduler.Cleaned))
            && var b5 := LoopStep(b4, 0, Scheduler.Wake(Scheduler.Cleaned));
               && b5.cog == b3.cog && b5.home == b3.home
               && 0 in b5.loops && b5.loops[0].(voice := Voice.Unset) == Drained(s)
  {
    var b4 := LoopStep(b3, 0, Scheduler.Complete(None));
    assert b4.cog == b3.cog;
    var b5 := LoopStep(b4, 0, Scheduler.Wake(Scheduler.Cleaned));
    assert b5.cog == b3.cog;
  }

  /** Playing again constructs player 1, connects it and enqueues the track,
      while player 0's loop waits on. */
  lemma ScenarioReplay(b5: Bot, g: GuildId, channel: Voice.ChannelId, s: Scheduler.Item)
    requires b5.cog == MusicCog.Cog(Registry.Players(map[], 1), map[0 := Voice.Client(channel, Voice.Disconnected)])
    requires 0 in b5.home && b5.home[0] == g
    requires 0 in b5.loops && b5.loops[0].(voice := Voice.Unset) == Drained(s)
    ensures var b6 := Exec(b5, g, Play(Some(channel), [s])).0;
            && b6.cog == Replayed(g, channel)
            && 0 in b6.home && b6.home[0] == g && 1 in b6.home
            && 0 in b6.loops && b6.loops[0].(voice := Voice.Unset) == Drained(s)
            && 1 in b6.loops && b6.loops[1].(voice := Voice.Unset) == Scheduler.Init().(queue := [s])
  {
    var o := MusicCog.Connect(b5.cog, g, None, Some(channel), false);
    assert Registry.GetPlayer(b5.cog.players, g) == Registry.Lookup(1, Registry.Players(map[g := 1], 2), true);
    assert o.cog.players == Registry.Players(map[g := 1], 2);
    assert o.cog.voice == b5.cog.voice[1 := Voice.Client(channel, Voice.Idle)];
    var command := Play(Some(channel), [s]);
    assert ReachesGetPlayer(b5.cog, g, command) && CogCommand(b5.cog, g, command) == o;
    var b6 := Exec(b5, g, command).0;
    assert b6 == EnqueueSources(Adopt(b5, g, o.cog), 1, [s]);
    assert b6.loops[0] == b5.loops[0].(voice := MusicCog.SlotOf(b6.cog, 0));
  }

  /** The cog of the scenario once player 1 is connected. */
  function Replayed(g: GuildId, channel: Voice.ChannelId): MusicCog.Cog {
    MusicCog.Cog(Registry.Players(map[g := 1], 2),
                 map[0 := Voice.Client(channel, Voice.Disconnected), 1 := Voice.Client(channel, Voice.Idle)])
  }

  /** Player 0's idle timeout, with player 1 registered in the same guild
      and holding the track: player 0 spawns its `destroy` task as task 2. */
  lemma ScenarioStaleTimeout(b6: Bot, g: GuildId, channel: Voice.ChannelId, s: Scheduler.Item)
    requires b6.cog == Replayed(g, channel)
    requires 0 in b6.home && b6.home[0] == g && 1 in b6.home
    requires 0 in b6.loops && b6.loops[0].(voice := Voice.Unset) == Drained(s)
    requires 1 in b6.loops && b6.loops[1].(voice := Voice.Unset) == Scheduler.Init().(queue := [s])
    ensures Scheduler.Enabled(b6.loops[0], Scheduler.DequeueTimeout(Scheduler.IdleTimeoutSeconds))
    ensures var b7 := LoopStep(b6, 0, Scheduler.DequeueTimeout(Scheduler.IdleTimeoutSeconds));
            && b7.cog == b6.cog && b7.home == b6.home
            && 0 in b7.loops && Scheduler.Enabled(b7.loops[0], Scheduler.TaskDone(2)) && DestroyDone(b7.loops[0], Scheduler.TaskDone(2))
            && 1 in b7.loops && b7.loops[1].(voice := Voice.Unset) == Scheduler.Init().(queue := [s])
  {
    var e := Scheduler.DequeueTimeout(Scheduler.IdleTimeoutSeconds);
    DrainedTimesOut(b6.loops[0], s);
    assert !DestroyDone(b6.loops[0], e);
    var b7 := LoopStep(b6, 0, e);
    assert b7.cog == b6.cog;
    assert b7.loops[1] == b6.loops[1].(voice := MusicCog.SlotOf(b7.cog, 1));
  }

  /** The drained loop's idle timeout spawns its `destroy` task as task 2. */
  lemma DrainedTimesOut(p: Scheduler.Player, s: Scheduler.Item)
    requires p.(voice := Voice.Unset) == Drained(s)
    ensures Scheduler.Enabled(p, Scheduler.DequeueTimeout(Scheduler.IdleTimeoutSeconds))
    ensures var q := Scheduler.Step(p, Scheduler.DequeueTimeout(Scheduler.IdleTimeoutSeconds));
            Scheduler.Enabled(q, Scheduler.TaskDone(2)) && DestroyDone(q, Scheduler.TaskDone(2))
  {
  }

  /** Player 0's `destroy` task finishes: `cleanup` of the guild
      deregisters player 1 and disconnects its client. */
  lemma ScenarioStaleDestroy(b7: Bot, g: GuildId, channel: Voice.ChannelId, s: Scheduler.Item)
    requires b7.cog == Replayed(g, channel)
    requires 0 in b7.home && b7.home[0] == g && 1 in b7.home
    requires 0 in b7.loops && Scheduler.Enabled(b7.loops[0], Scheduler.TaskDone(2)) && DestroyDone(b7.loops[0], Scheduler.TaskDone(2))
    requires 1 in b7.loops && b7.loops[1].(voice := Voice.Unset) == Scheduler.Init().(queue := [s])
    ensures var b8 := LoopStep(b7, 0, Scheduler.TaskDone(2));
            && g !in b8.cog.players.byGuild
            && 1 in b8.cog.voice && b8.cog.voice[1] == Voice.Client(channel, Voice.Disconnected)
            && 1 in b8.loops && 1 in b8.home
            && b8.loops[1].(voice := Voice.Unset) == Scheduler.Init().(queue := [s])
            && b8.loops[1].voice == Voice.Assigned(Some(Voice.Client(channel, Voice.Disconnected)))
  {
    var b8 := LoopStep(b7, 0, Scheduler.TaskDone(2));
    assert b8.cog == MusicCog.Cleanup(b7.cog, g);
    assert b8.loops[1] == b7.loops[1].(voice := MusicCog.SlotOf(b8.cog, 1));
  }

  /** Player 1's loop, its client disconnected by the stale `destroy`,
      dies on taking the track it was given. */
  lemma ScenarioLostTrack(b8: Bot, channel: Voice.ChannelId, s: Scheduler.Item)
    requires 1 in b8.loops && 1 in b8.home
    requires b8.loops[1].(voice := Voice.Unset) == Scheduler.Init().(queue := [s])
    requires b8.loops[1].voice == Voice.Assigned(Some(Voice.Client(channel, Voice.Disconnected)))
    ensures b8.loops[1].phase == Scheduler.WaitQueue && b8.loops[1].queue == [s]
    ensures Scheduler.LoopTask in b8.loops[1].tasks
    ensures Scheduler.Enabled(b8.loops[1], Scheduler.DequeueOk)
    ensures var b9 := LoopStep(b8, 1, Scheduler.DequeueOk);
            b9.loops[1].phase == Scheduler.Crashed && b9.loops[1].played == []
  {
    assert b8.loops[1].queue == [s];
  }

  /** `queue`: `get_player` (which constructs a player, and starts its loop,
      in a guild without one), then the numbered listing of that player's
      queue, which is left as it was. */
  method Queue(b: Bot, g: GuildId) returns (message: string, after: Bot)
    requires Valid(b)
    ensures after == Adopt(b, g, MusicCog.Lookup(b.cog, g).1)
    ensures after.cog.players == Registry.GetPlayer(b.cog.players, g).players
    ensures Valid(after)
    ensures var p := Registry.GetPlayer(b.cog.players, g).player;
            p in after.loops && message == MusicCog.QueueListing(MusicCog.Titles(after.loops[p].queue))
    ensures g in b.cog.players.byGuild ==> message == MusicCog.QueueListing(MusicCog.Titles(b.loops[b.cog.players.byGuild[g]].queue))
    ensures g !in b.cog.players.byGuild ==> message == MusicCog.ListingHeader
  {
    var (p, c) := MusicCog.Lookup(b.cog, g);
    AdoptValid(b, g, c);
    after := Adopt(b, g, c);
    var playList, kept, rounds := Scheduler.GetPlaylist(after.loops[p]);
    message := MusicCog.QueueListing(MusicCog.Titles(playList));
  }
}

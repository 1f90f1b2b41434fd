/** The voice client as the music commands see it, and the guards the
    `pause`, `resume`, `skip`, `stop` and `connect` commands put in front of
    it. The same guards appear in both music cogs; the cogs differ only in
    where the voice client is kept (see `MusicCog` and `LegacyMusicCog`). */
module Voice {
  import opened Wrappers

  type ChannelId = nat

  /** The transport state behind `is_playing()`, `is_paused()` and
      `is_connected()`. */
  datatype Status = Idle | Playing | Paused | Disconnected

  datatype Client = Client(channel: ChannelId, status: Status) {
    predicate IsPlaying() { status == Playing }
    predicate IsPaused() { status == Paused }
    predicate IsConnected() { status != Disconnected }
  }

  /** An attribute that holds an optional client. `Unset` is a `__slots__`
      attribute that was never assigned: reading it raises `AttributeError`. */
  datatype Slot = Unset | Assigned(client: Option<Client>)

  datatype CommandError = VoiceConnectionError | AttributeError

  /** The client after a guarded command, and whether the guard let it act. */
  datatype Guarded = Guarded(client: Option<Client>, acted: bool)

  /** `if voice_client and voice_client.is_playing(): voice_client.pause()` */
  function Pause(c: Option<Client>): (r: Guarded)
    ensures r.acted <==> c.Some? && c.value.IsPlaying()
    ensures r.acted ==> r.client == Some(c.value.(status := Paused))
    ensures !r.acted ==> r.client == c
  {
    if c.Some? && c.value.IsPlaying() then Guarded(Some(c.value.(status := Paused)), true)
    else Guarded(c, false)
  }

  /** `if voice_client and voice_client.is_paused(): voice_client.resume()` */
  function Resume(c: Option<Client>): (r: Guarded)
    ensures r.acted <==> c.Some? && c.value.IsPaused()
    ensures r.acted ==> r.client == Some(c.value.(status := Playing))
    ensures !r.acted ==> r.client == c
  {
    if c.Some? && c.value.IsPaused() then Guarded(Some(c.value.(status := Playing)), true)
    else Guarded(c, false)
  }

  /** `if voice_client and voice_client.is_playing(): voice_client.stop()`.
      Stopping ends the current item, which makes the transport call the
      item's `after` callback (`Scheduler.Complete`). */
  function Skip(c: Option<Client>): (r: Guarded)
    ensures r.acted <==> c.Some? && c.value.IsPlaying()
    ensures r.acted ==> r.client == Some(c.value.(status := Idle))
    ensures !r.acted ==> r.client == c
  {
    if c.Some? && c.value.IsPlaying() then Guarded(Some(c.value.(status := Idle)), true)
    else Guarded(c, false)
  }

  /** The guard of `stop`: it acts only on a connected client, by
      disconnecting it (`cleanup`). */
  function Stop(c: Option<Client>): (r: Guarded)
    ensures r.acted <==> c.Some? && c.value.IsConnected()
    ensures r.acted ==> r.client == Some(c.value.(status := Disconnected))
    ensures !r.acted ==> r.client == c
  {
    if c.Some? && c.value.IsConnected() then Guarded(Some(c.value.(status := Disconnected)), true)
    else Guarded(c, false)
  }

  /** Pausing and then resuming a playing client restores it exactly. */
  lemma PauseResumeRoundTrip(c: Option<Client>)
    requires c.Some? && c.value.IsPlaying()
    ensures Pause(c).acted && Resume(Pause(c).client).acted
    ensures Resume(Pause(c).client).client == c
  {
  }

  /** At most one of pause, resume and stop-less skip can act on a client:
      pause and skip need it playing, resume needs it paused. A second
      pause never acts. */
  lemma GuardsExclusive(c: Option<Client>)
    ensures !(Pause(c).acted && Resume(c).acted)
    ensures Pause(c).acted == Skip(c).acted
    ensures !Pause(Pause(c).client).acted
    ensures Pause(c).acted || Resume(c).acted ==> Stop(c).acted
  {
  }

  /** What `connect` does once it has a target channel. */
  datatype ConnectAction = FreshConnect | StayPut | MoveTo

  /** The target channel: the explicit argument, else the author's voice
      channel; an author outside any voice channel raises
      `VoiceConnectionError` (`ctx.author.voice` is None). */
  function Target(channel: Option<ChannelId>, authorVoice: Option<ChannelId>): (r: Result<ChannelId, CommandError>)
    ensures channel.Some? ==> r == Success(channel.value)
    ensures r.Failure? <==> channel.None? && authorVoice.None?
    ensures r.Failure? ==> r.error == VoiceConnectionError
    ensures channel.None? && authorVoice.Some? ==> r == Success(authorVoice.value)
  {
    if channel.Some? then Success(channel.value)
    else if authorVoice.Some? then Success(authorVoice.value)
    else Failure(VoiceConnectionError)
  }

  /** `if ctx.voice_client is None or held is None: connect` / `if
      held.channel.id == channel.id: return` / `move_to(channel)`. The
      `or` short-circuits, so an unset `held` is read only when the guild
      already has a voice client. */
  function Decide(guildConnected: bool, held: Slot, target: ChannelId): (r: Result<ConnectAction, CommandError>)
    ensures !guildConnected ==> r == Success(FreshConnect)
    ensures r.Failure? <==> guildConnected && held.Unset?
    ensures r == Success(StayPut) <==> guildConnected && held.Assigned? && held.client.Some? && held.client.value.channel == target
    ensures r == Success(MoveTo) <==> guildConnected && held.Assigned? && held.client.Some? && held.client.value.channel != target
  {
    if !guildConnected then Success(FreshConnect)
    else match held
      case Unset => Failure(AttributeError)
      case Assigned(None) => Success(FreshConnect)
      case Assigned(Some(c)) => if c.channel == target then Success(StayPut) else Success(MoveTo)
  }

  /** The held client after the action: a fresh connection is idle in the
      target channel; a move keeps the transport state. */
  function Apply(held: Slot, action: ConnectAction, target: ChannelId): Option<Client>
    requires action != FreshConnect ==> held.Assigned? && held.client.Some?
  {
    match action
    case FreshConnect => Some(Client(target, Idle))
    case StayPut => held.client
    case MoveTo => Some(held.client.value.(channel := target))
  }

  /** Whatever `connect` decides, the bot ends up holding a client in the
      target channel, and connecting again to the same channel is a no-op. */
  lemma {:induction false} ConnectReachesTarget(guildConnected: bool, held: Slot, target: ChannelId)
    requires Decide(guildConnected, held, target).Success?
    ensures var c := Apply(held, Decide(guildConnected, held, target).value, target);
            c.Some? && c.value.channel == target
            && Decide(true, Assigned(c), target) == Success(StayPut)
  {
    var action := Decide(guildConnected, held, target).value;
    match action
    case FreshConnect =>
    case StayPut =>
      assert held.client.value.channel == target;
    case MoveTo =>
  }
}

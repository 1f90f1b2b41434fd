# Bahn bot core, modelled in Dafny

This project models the decision logic of a Discord bot with three plug-ins: music playback, the MVG (Munich transit) disruption ticker, and the Deutsche Bahn "station of the day". It also models the role check its commands share.

The centre of the model is the per-guild music player, `MusicPlayer` with its `player_loop`. It is written as an explicit state record (`Scheduler.Player`) that is stepped by events:
- the `play` command enqueues an item;
- the queue hands out an item, or the 100-second idle timeout expires;
- the voice transport calls an item's `after` callback;
- the loop wakes from `next.wait()` and cleans the item up;
- a task spawned through `creat_referenced_task` finishes;
- `connect` stores a voice client on the player.

`Enabled` says which of these events can happen in a given state. `Run` replays a whole trace of events from the freshly constructed player. Properties about traces are proved over `Run`.

Around the player sit these modules:
- `Registry`: the cogs' guild-to-player dictionary (`get_player`, and the registry half of `cleanup`).
- `Voice`: the voice-command guards and the `connect` decision.
- `MusicCog`: the newer cog, where each player holds its own voice client.
- `Lifecycle`: the newer cog together with the loops of the players it constructed. Commands that call `get_player` start a new player's loop, and a loop's `destroy` task runs the cog's `cleanup`.
- `LegacyMusicCog`: the older cog. Besides each guild's own voice client, it keeps one shared client reference on the cog, and its voice commands act on that reference.
- `Resolver`: turning extractor output into audio sources.
- `Mvg` and `LegacyMvg`: the two MVG cogs.
- `StationOfTheDay`: the station announcement.
- `Roles`: `check_roles`.

`Wrappers`, `Text` and `Embeds` are shared helpers: option and result types, Python's `str.join` and `str.lower`, and a record for a Discord embed.

Modelling conventions:
- Inputs stand in for everything external: the network clients, the media extractor, Markdown conversion, date formatting and random choices.
- A Discord embed is the record of what the code sets on it.
- `discord.Embed(colour=a, color=b)` keeps `a`. So the station embeds are dark red.
- A `__slots__` attribute that is declared but never assigned is modelled as `Voice.Unset`. Reading it raises `AttributeError`.

## Where the code and its design description part ways

The model follows the code:
- **No separate "playing" phase.** The loop hands an item to the transport and then waits on `next` at once.
- **Duplicate `after` calls are not handled.** The loop clears `next` at the top of each iteration, not atomically with waking. So a second `after` call for one item would not be absorbed; the model relies on the transport calling `after` exactly once (`Enabled`'s `Complete` case).
- **Teardown cancels nothing, and `destroy` is not tied to its player.** The code has no step that cancels the player's tasks on teardown. `stop` and the timeout's `destroy` both run the cog's `cleanup` for a guild. That disconnects and deregisters whichever player is registered there now, and it does not stop any loop. So a player deregistered by `stop` keeps waiting on its queue. When it times out, its `destroy` tears down the guild's next player; see Findings.
- **The voice client is not "absent until first connect".** In `cogs/music/player.py` it is never assigned at all; see Findings.

## Model

| member | source | states |
|---|---|---|
| Scheduler.Init | cogs/music/player.py:38-46 | a new player has exactly one task, its own loop; it waits on an empty queue with no item current, and already satisfies the player invariant |
| Scheduler.Spawn | cogs/music/player.py:93-96 | a spawned task is registered under an id never used before; queue, phase and logs are untouched |
| Scheduler.Step | cogs/music/player.py:57-91 | every event keeps the player invariant (at most one item in flight, the flag only raised while waiting for completion, only the loop task is a loop); taken items followed by the queue always equal everything enqueued, in order; only a dequeue hands anything to the transport, and then exactly the queue's head |
| Scheduler.Run | cogs/music/player.py:57-91 | over any possible trace from a valid state the invariant holds, and taken-then-queued items are the start's items followed by every enqueued item in enqueue order |
| Scheduler.GetPlaylist | cogs/music/player.py:48-55 | the listing is exactly the queue in FIFO order, the queue is left with the same contents in the same order, and exactly `qsize` get/put rounds run (none for an empty queue) |
| Scheduler.FlagClearedBeforeDequeue | cogs/music/player.py:60-64 | in every trace from a new player, whenever a dequeue can happen the flag is down, no `after` call is pending and no item is current; right after each wake-up the loop is back at the queue with the flag down and no current item |
| Scheduler.AtMostOneInFlight | cogs/music/player.py:64-86 | while an `after` callback is pending no item can be dequeued, and a dequeue happens only with no item current and the flag down |
| Scheduler.CompletionIgnoresError | cogs/music/player.py:76-82 | a callback reporting an error has exactly the effect of one reporting none: the flag is set, the queue is unchanged (no retry), and the loop can wake |
| Scheduler.CleanupErrorKeepsLoop | cogs/music/player.py:87-91 | a `ValueError` from cleanup leads to the same state as a clean cleanup: loop back at the queue, `current` reset |
| Scheduler.TimeoutSpawnsOneDestroy | cogs/music/player.py:63-69 | the timeout adds exactly one new task, a `destroy`, keeps all other tasks, and ends the loop without playing anything |
| Scheduler.DestroyedIsFinal | cogs/music/player.py:63-69 | after the loop returned on timeout, no later event takes or plays an item or revives the loop |
| Scheduler.FifoPlayOrder | cogs/music/player.py:64-74 | the items handed to the transport are a prefix of the items taken, which are a prefix of the items enqueued |
| Scheduler.PlaysFollowCompletions | cogs/music/player.py:73-86 | the number of plays is the number of completions observed plus one if a play is still in flight: play i+1 starts only after completion i |
| Scheduler.TeardownAtMostOnce | cogs/music/player.py:63-69 | in any trace the idle timeout fires at most once, and it has fired exactly when the player is destroyed |
| Scheduler.StepTaskIds | cogs/music/player.py:93-96 | one event spawns at most one task, under the next fresh id, and removes at most one task, the one it reports done; a finishing task never spawns one |
| Scheduler.TasksAreSpawnedNotDone | cogs/music/player.py:93-96 | `player_tasks` holds exactly the tasks spawned and not yet reported done, and only spawned tasks are ever reported done |
| Scheduler.HungIsPermanent | cogs/music/player.py:73-86 | an item taken while the voice client is None leaves the loop waiting forever: no event ends the wait or plays anything (a state neither cog reaches: the older never assigns the client, the newer only stores opened ones) |
| Scheduler.UnattachedNeverPlays | cogs/music/player.py:71-74 | with the voice client slot never assigned, no trace plays anything and at most one item is ever taken (the loop dies on it) |
| Scheduler.AttachedPlaysHead | cogs/music/player.py:73-83 | with a connected client attached, a dequeue hands the queue's head to the transport and waits for its callback |
| Scheduler.DisconnectedClientCrashes | cogs/music/player.py:71-74 | with a client that is no longer connected, a dequeue takes the head but plays nothing: `play` raises, the loop crashes, no task is spawned and no callback is awaited |
| Registry.GetPlayer | bot/cogs/music/music_cog.py:194-200 | an existing player is returned without constructing one; otherwise a new instance, distinct from every registered one, is constructed and stored under the guild; other guilds keep their players; registry validity is preserved |
| Registry.Cleanup | bot/cogs/music/music_cog.py:153-156 | the guild's entry is gone, every other entry is kept, an absent guild leaves the registry unchanged, validity is preserved |
| Registry.GetPlayerTwice | cogs/music/music_cog.py:180-186 | two lookups for one guild return the same instance and the second constructs nothing and changes nothing |
| Registry.CleanupIdempotent | cogs/music/music_cog.py:147-150 | removing a guild twice is the same as removing it once |
| Registry.CleanupThenGetIsFresh | bot/cogs/music/music_cog.py:194-200 | after cleanup the next lookup constructs a brand-new instance that was never registered before |
| Voice.Pause | bot/cogs/music/music_cog.py:109-110 | pause acts exactly when there is a playing client, leaves it paused in the same channel, and otherwise changes nothing |
| Voice.Resume | bot/cogs/music/music_cog.py:120-121 | resume acts exactly when there is a paused client and leaves it playing; otherwise nothing changes |
| Voice.Skip | bot/cogs/music/music_cog.py:130-131 | skip acts exactly when there is a playing client and stops its current item; otherwise nothing changes |
| Voice.Stop | bot/cogs/music/music_cog.py:139-143 | stop acts exactly when there is a connected client and leaves it disconnected; otherwise nothing changes |
| Voice.PauseResumeRoundTrip | bot/cogs/music/music_cog.py:105-125 | pausing and then resuming a playing client both act and restore the client exactly |
| Voice.GuardsExclusive | cogs/music/music_cog.py:106-126 | pause and resume never both apply, skip applies exactly when pause does, a second pause does nothing, and whenever pause or resume applies the client is connected |
| Voice.Target | bot/cogs/music/music_cog.py:86-92 | the explicit channel wins, else the author's voice channel; a `VoiceConnectionError` arises exactly when neither exists |
| Voice.Decide | bot/cogs/music/music_cog.py:94-103 | fresh connect when the guild has no voice client or the held one is None; reading an unassigned held client raises `AttributeError`; stay exactly when already in the target channel; move exactly when in another one |
| Voice.ConnectReachesTarget | bot/cogs/music/music_cog.py:94-103 | whatever the decision, the held client ends up in the target channel, and connecting there again is a no-op |
| MusicCog.Guarded | bot/cogs/music/music_cog.py:108-131 | each guarded command registers the guild's player if needed, raises `AttributeError` exactly when that player's client was never assigned, and changes only that player's client, and only when the guard acts; it keeps the cog valid (every recorded client belongs to a constructed player) |
| MusicCog.Pause | bot/cogs/music/music_cog.py:105-114 | pause acts exactly when the guild player's client is playing, and leaves it paused |
| MusicCog.Resume | bot/cogs/music/music_cog.py:116-125 | resume acts exactly when the guild player's client is paused, and leaves it playing |
| MusicCog.Skip | bot/cogs/music/music_cog.py:127-133 | skip acts exactly when the guild player's client is playing, and stops it |
| MusicCog.Cleanup | bot/cogs/music/music_cog.py:147-156 | the guild's player is deregistered and its client, if any, disconnected; for an unregistered guild nothing changes |
| MusicCog.Stop | bot/cogs/music/music_cog.py:135-145 | stop raises exactly when the player has no client, acts exactly when the client is connected, and then disconnects it and deregisters the guild, which otherwise stays registered |
| MusicCog.Connect | bot/cogs/music/music_cog.py:82-103 | with no target it raises before touching the registry; otherwise the player is registered, a guild without voice client always connects, and after a connect or no-op the player's client is in the target channel |
| MusicCog.NewPlayerHasNoClient | bot/cogs/music/music_cog.py:194-200 | in a guild without a player, `pause`, `resume`, `skip` and `stop` construct one whose client was never assigned, so each raises `AttributeError`, and the new player stays registered |
| MusicCog.ConnectTwiceStays | bot/cogs/music/music_cog.py:99-100 | connecting again to the channel just connected to changes nothing and is ignored |
| MusicCog.EnqueueAll | bot/cogs/music/music_cog.py:55-64 | one enqueue per yielded source, in yield order |
| MusicCog.PlayEnqueuesInOrder | bot/cogs/music/music_cog.py:55-64 | `play` appends the resolved sources to the player's queue in the order they were yielded, in any player state, changing nothing else |
| MusicCog.ListingLines | bot/cogs/music/music_cog.py:73-77 | one line per playlist item, the i-th numbered i+1 and carrying the i-th title |
| MusicCog.QueueListing | bot/cogs/music/music_cog.py:72-78 | the message starts with the fixed header; an empty playlist gives the header alone, one item gives header plus line 1 |
| MusicCog.ListingGrowsByOneLine | bot/cogs/music/music_cog.py:72-78 | one more item appends exactly one newline-separated line numbered one past the last |
| MusicCog.Titles | bot/cogs/music/music_cog.py:75 | one rendered title per source, in order |
| LegacyMusicCog.Pause | cogs/music/music_cog.py:103-111 | acts exactly when the cog's shared client is playing, and pauses that client only; never touches the registry or any other client |
| LegacyMusicCog.Resume | cogs/music/music_cog.py:113-121 | acts exactly when the shared client is paused, and resumes it only; never touches the registry or any other client |
| LegacyMusicCog.Skip | cogs/music/music_cog.py:123-128 | acts exactly when the shared client is playing, and stops its item only; never touches the registry or any other client |
| LegacyMusicCog.Cleanup | cogs/music/music_cog.py:141-150 | the guild's player is deleted and the guild's own client, if connected, disconnected; a guild without a client changes no client; the shared reference is kept |
| LegacyMusicCog.Stop | cogs/music/music_cog.py:130-139 | acts exactly when the shared client is connected, and then runs `cleanup` for the command's guild: its player is gone, its own client disconnected, every other guild's client untouched |
| LegacyMusicCog.Connect | cogs/music/music_cog.py:85-101 | no target raises `VoiceConnectionError`; with a target it never fails and never touches the registry; fresh connect exactly when the guild has no connected client or the cog holds none, and then the new idle client in this guild becomes the shared one; a stay changes nothing; the shared client ends in the target channel; clients of other guilds are kept |
| LegacyMusicCog.FirstConnectIsFresh | cogs/music/music_cog.py:43-101 | before any connect no voice command acts, and the first connect, in any guild, opens the shared client |
| LegacyMusicCog.ConnectReplacesSharedClient | cogs/music/music_cog.py:92-96 | connecting in a guild without a connected client replaces the single client every guild's commands act on with a fresh idle one from that guild |
| LegacyMusicCog.StopLeavesSharedClient | cogs/music/music_cog.py:130-150 | `stop` in a guild other than the shared client's deregisters that guild and disconnects its own client, but the shared client stays as it was, so `pause` still acts on it |
| Lifecycle.Adopt | bot/cogs/music/music_cog.py:194-200 | a player that `get_player` constructs starts its loop in the initial state, at home in the command's guild; existing loops are kept and every loop sees its player's client |
| Lifecycle.AdoptValid | bot/cogs/music/music_cog.py:194-200 | after `get_player` and a command's effect on the cog, every constructed player still has exactly one loop, registered players are at home, and loops see the cog's clients |
| Lifecycle.Exec | bot/cogs/music/music_cog.py:40-145 | `play` in a guild without a connected client, by an author outside any voice channel, raises `VoiceConnectionError` and changes nothing; any other `play` connects when the guild had no connected client (to an idle client in the author's channel), leaves the guild registered to the player `get_player` returned with a connected client, and appends the sources to that player's queue, a new player's loop starting with them; `pause`, `resume`, `skip` and `stop` are the cog command plus the loop of a player it constructed; validity is kept, other loops only see new clients, and `stop` in a fresh guild raises and leaves the new player registered |
| Lifecycle.EnqueueSources | bot/cogs/music/music_cog.py:55-64 | the player's loop is exactly its loop after one enqueue event per source, in yield order, so its queue gains the sources at its end; the cog and every other loop are untouched and validity is kept |
| Lifecycle.Destroy | cogs/music/player.py:98-100 | `destroy` runs `cleanup` for the player's guild, so afterwards that guild has no registered player |
| Lifecycle.Transport | cogs/music/player.py:73-83 | `play` on a connected client leaves it playing and the `after` callback leaves a still-connected client idle; no other event touches a client, and the registry never changes |
| Lifecycle.LoopStep | cogs/music/player.py:57-100 | a loop event steps that loop as the player model does; the voice transport sets the client playing on a play and idle on a completion; a finishing `destroy` task runs `cleanup` of the player's home guild; every loop sees the resulting cog and validity is kept |
| Lifecycle.PlayMakesPausable | cogs/music/player.py:71-84 | when the registered player of a guild takes an item on a connected client, the item is played, the client is playing, and the guild's `pause` and `skip` act on it |
| Lifecycle.CompletionEndsPlaying | cogs/music/player.py:76-82 | once the `after` callback fired, the player's client no longer plays, so the guild's `pause` and `skip` are ignored |
| Lifecycle.StoppedLoopCrashes | cogs/music/player.py:71-74 | a loop whose client was disconnected crashes on the next item it takes: nothing is played, the cog is untouched, and the crashed loop cannot time out into a `destroy` |
| Lifecycle.IdleTimeoutDeregisters | cogs/music/player.py:63-69 | an idle player's timeout and its `destroy` task end its loop and deregister its guild, and, while it was the registered player, disconnect its client |
| Lifecycle.StaleDestroyHitsSuccessor | cogs/music/player.py:98-100 | the `destroy` of a player that another player has replaced still deregisters the guild and disconnects the other player's client, while the other player's loop goes on |
| Lifecycle.Replay | bot/cogs/music/music_cog.py:40-66 | after `play`, the loop taking the track, `stop`, the end of the track and `play` again, the first player has played the track and waits on an empty queue, while a second player is registered in the guild with an idle client and the track queued |
| Lifecycle.StaleDestroyScenario | cogs/music/player.py:63-100 | from that state, the first player's idle timeout and its `destroy` deregister the second player and disconnect its client while its loop still holds the track, and that loop crashes on taking it without playing anything |
| Lifecycle.DestroyOwn | cogs/music/player.py:98-100 | the corrected `destroy` cleans up only while the guild is registered to the player itself, and then coincides with `destroy` as written |
| Lifecycle.DestroyOwnSparesSuccessor | cogs/music/player.py:98-100 | with the corrected `destroy`, a player's own teardown deregisters it and a stale one leaves the guild's current player and every client alone |
| Lifecycle.Queue | bot/cogs/music/music_cog.py:68-80 | `queue` runs `get_player`, so it registers (and starts) a player in a new guild; the message is the numbered listing of the player's queue in FIFO order, the header alone for a new guild; the queue is left as it was |
| Resolver.MergeInfo | cogs/music/online/youtube_dl.py:92-93 | the merged info has every processed key with its processed value, and every default key not overridden with its default value, and no other key |
| Resolver.CreateSource | cogs/music/online/youtube_dl.py:81-100 | `KeyError('url')` exactly in stream mode without `url`; the input is the processed `url` when streaming, else the prepared file name; the source carries the merged info, the author and the channel |
| Resolver.FanOut | cogs/music/online/youtube_dl.py:129-138 | the sources are those of the entries in entry order, up to the first entry that fails, whose error ends the generator; no error exactly when every entry yielded |
| Resolver.CreateSources | cogs/music/online/youtube_dl.py:102-138 | a None result raises `YTDLError` before yielding; a single result yields exactly the source `create_source` builds, and raises `KeyError('url')` with nothing yielded exactly when streaming without a url; a playlist yields what the entry fan-out yields, at most one source per entry; every source records the command's author and channel |
| Resolver.SingleResultYieldsOne | cogs/music/online/youtube_dl.py:120-128 | a single result with a url yields exactly one source with the merged info, streamed from that url |
| Resolver.PlaylistYieldsEachEntry | cogs/music/online/youtube_dl.py:129-138 | a playlist of streamable entries yields one source per entry in entry order, none for an empty playlist |
| Mvg.ConvertTransport | bot/cogs/mvg/mvg_cog.py:26-38 | the converter only ever answers one of the four transport types, or None |
| Mvg.ConvertMatchesTable | cogs/mvg/mvg_cog.py:31-40 | the converter is exactly a lookup of the lowered argument in the alias table (s/sbahn, b/bus, t/tram, u/ubahn/m/metro), None otherwise |
| Mvg.ConvertOfLowered | bot/cogs/mvg/mvg_cog.py:26-38 | converting an already lowered argument gives the same answer as converting the argument |
| Mvg.ConvertIgnoresCase | bot/cogs/mvg/mvg_cog.py:29 | arguments equal up to case convert alike |
| Mvg.CheckTypeOfTransport | bot/cogs/mvg/mvg_cog.py:193-201 | no type accepts every ticker, no lines rejects, an empty line list gives the falsy None, and the result is true exactly when no type is given or the first line matches type and line id |
| Mvg.FirstLineDecides | cogs/mvg/mvg_cog.py:197-200 | tickers with the same first line are filtered alike whatever their other lines |
| Mvg.Announced | bot/cogs/mvg/mvg_cog.py:186-190 | the posted tickers are exactly those whose check is true: each posted one passes, and every passing one is posted; a single ticker is posted exactly when its check is true |
| Mvg.AnnouncedAppend | bot/cogs/mvg/mvg_cog.py:187-190 | announcing two lists one after the other posts the first list's tickers, then the second's, in API order and each as often as it occurs |
| Mvg.NoTypeAnnouncesAll | bot/cogs/mvg/mvg_cog.py:193-195 | without a transport type every ticker is posted, in API order |
| Mvg.TickerColour | bot/cogs/mvg/mvg_cog.py:205-210 | red exactly for DISRUPTION, yellow exactly for PLANED, blue exactly otherwise |
| Mvg.LinkPart | bot/cogs/mvg/mvg_cog.py:212-216 | without links no URL and no fields; otherwise the first link is the URL and each further link is a field, in order |
| Mvg.IncidentFields | bot/cogs/mvg/mvg_cog.py:217-221 | an incidents field exists exactly when incidents are given and none is UNKNOWN; it lists them newline-joined and is labelled singular exactly for one incident |
| Mvg.ImageUrl | bot/cogs/mvg/mvg_cog.py:225-229 | an image exactly when there are download links, pointing at the last one under the API's ticker-file path |
| Mvg.DurationFields | bot/cogs/mvg/mvg_cog.py:230-238 | an active-period field exactly when the start date is known, reading from start to end; an open-ended period reads "Von <start> bis Ungewiss" |
| Mvg.TickerToEmbed | bot/cogs/mvg/mvg_cog.py:203-239 | title, converted text, colour by kind, first link as URL, fields in order links, incidents, period, image from the last download link |
| Mvg.TickerFieldCount | cogs/mvg/mvg_cog.py:202-238 | a ticker embed has one field per link beyond the first plus at most two more |
| Mvg.SlimFields | bot/cogs/mvg/mvg_cog.py:175-176 | one field per slim item, in order, named Störung and carrying the item's title |
| Mvg.SlimSummary | bot/cogs/mvg/mvg_cog.py:160-177 | singular text for one item, the count text otherwise, one field per item, yellow |
| Mvg.NoDisruption | bot/cogs/mvg/mvg_cog.py:148-158 | the no-disruption text with no fields, yellow |
| Mvg.GenerateSlim | bot/cogs/mvg/mvg_cog.py:135-177 | a fetch error gives a red error embed with the footer "Letzte Aktualisierung" rather than an exception; zero items the no-disruption text; one item the singular text; n items the count text; one field per item in order; a non-empty list has the footer "Letzte Aktualisierung um" |
| LegacyMvg.GenerateSlim | cogs/mvg/mvg_cog.py:146-176 | zero, one or n variant with one field per item, and the footer "Letzte Aktualisierung um" in every case |
| LegacyMvg.AgreesWithNewerCog | cogs/mvg/mvg_cog.py:148-159 | on a fetched list the older summary equals the newer one except for the empty-list footer, and equals it outright for a non-empty list |
| StationOfTheDay.Choose | bot/cogs/deutschebahn/station.py:19 | a random choice is an element of the sequence |
| StationOfTheDay.PickStation | bot/cogs/deutschebahn/station.py:18-29 | no countries raises `IndexError`; a chosen station comes from the last drawn country, whose station list is non-empty, and every earlier draw found an empty list |
| StationOfTheDay.ActiveSentence | bot/cogs/deutschebahn/station.py:30-32 | the inactive text exactly for an inactive station, the active text exactly otherwise |
| StationOfTheDay.ShortCodeSentence | bot/cogs/deutschebahn/station.py:34-41 | the abbreviation sentence appears exactly when the short code is present, not NULL, not `**`, and non-empty, and then names the code |
| StationOfTheDay.ShortCodePlaceholders | bot/cogs/deutschebahn/station.py:35-40 | None, NULL, `**` and the empty code give no sentence; every other code gives one |
| StationOfTheDay.StationEmbed | bot/cogs/deutschebahn/station.py:43-50 | the main embed is dark red with the station's title and the description |
| StationOfTheDay.PhotoEmbed | bot/cogs/deutschebahn/station.py:53-63 | a photo embed credits the photographer, names the licence, and shows the photo under the fixed URL prefix |
| StationOfTheDay.PhotoEmbeds | bot/cogs/deutschebahn/station.py:51-64 | `min(4, len(photos))` embeds, the i-th for the i-th photo |
| StationOfTheDay.PhotosBeyondFourIgnored | bot/cogs/deutschebahn/station.py:52 | photos after the fourth never change the photo embeds |
| StationOfTheDay.Announcement | bot/cogs/deutschebahn/station.py:17-65 | the station embed, then the photo embeds of the station's first four photos, in order |
| Roles.Get | bot/cogs/utlis.py:9-14 | a found role is one of the author's and matches the item; nothing is found exactly when no role matches |
| Roles.CheckRoles | bot/cogs/utlis.py:8-19 | true exactly when some requested item (int by id, otherwise by name) matches some role of the author; an empty request is false |
| Roles.MoreRolesNeverRevoke | bot/cogs/utlis.py:10-17 | asking for a superset of items never turns a granted check into a refusal |
| Roles.AppendEitherOrder | bot/cogs/utlis.py:10-17 | checking a concatenation is the disjunction of checking the parts, and the order of the parts does not matter |

## Left out

- Concurrency: asyncio scheduling, `call_soon_threadsafe`, `async_timeout`, `wait_until_ready` and the `is_closed` loop guard become events in one sequential trace. The loop is taken to run until it returns or raises.
- Discord I/O: messages, reactions, deletions, `change_presence`, and the `to_embed` and `to_activity` renderings. `cog_command_error` dispatch is not modelled; a raised error is a reply value.
- Persistence and subscriptions: the database, `add_request_to_database`, and the subscribe/unsubscribe commands of the MVG and Deutsche Bahn cogs.
- Network clients and library wrappers: the Deutsche Bahn and MVG API clients, the extractor's `extract_info`, FFmpeg and markdownify. Their results are inputs to the model.
- Configuration and bootstrap: the config files and loaders and the main modules.
- Floats and dates: latitude and longitude are taken as their text; dates arrive already formatted; photo timestamps and embed timestamps are left out.
- bot/cogs/music/player.py is not part of this model. The newer cog's player is modelled by `cogs/music/player.py`.
- Resolver.MergeInfo: that `default_info` itself is not mutated holds by value semantics, so it is not stated.
- MusicCog.Cleanup: the guild's voice client that `cleanup` disconnects is taken to be the client the guild's player holds.
- LegacyMusicCog.Connect: a fresh connect in a guild whose client is still connected (possible only while the cog holds no client) is taken to replace that client; the voice library would refuse it.
- LegacyMusicCog.Connect: a moved client stays recorded under the guild it was opened in.
- Lifecycle.LoopStep: the `cleanup` a `destroy` task runs is taken to happen at the moment that task is reported done. A client reaches a player only through `play`'s `connect`, so the loop's own `Attach` event is not used here.
- Lifecycle.Exec: `play` carries the sources its search yields; the extractor, the typing indicator, the message deletion and the database write are left out. An explicit `connect` channel is not modelled, since `play` never passes one.
- Mvg.ConvertTransport: Python's `lower` is modelled on ASCII letters only.
- StationOfTheDay.PickStation: each `random.choice` is an arbitrary draw, and the draws are a finite input. `OutOfDraws` stands for the Python loop still running when the draws end.
- Scheduler.Step: only one `after` call per play is modelled.
- Scheduler.Step: there is no clock; the timeout event carries the seconds waited, which must be the full 100.
- Scheduler.Step: presence resets and the "now playing" message are tasks or effects whose contents are not modelled.

## Findings

| source | as written | input that shows it | evidently intended | confidence | as-written member | corrected member |
|---|---|---|---|---|---|---|
| cogs/music/player.py:73 | the loop reads `self.voice_client`, a `__slots__` attribute that `__init__` (38-46) never assigns and the older cog never assigns either, so it raises `AttributeError` and the loop task dies | `play` one track in a fresh guild: the first dequeue takes the track and crashes before handing it to the transport | the loop plays each item on the client `connect` opened, as the newer cog does by storing the client on the player | high (not executed) | Scheduler.UnattachedNeverPlays | Scheduler.AttachedPlaysHead |
| cogs/music/player.py:98-100 | `destroy` runs the cog's `cleanup` for its guild, whichever player is registered there by then; `stop` (bot/cogs/music/music_cog.py:136-145) deregisters a player without ending its loop | `play` a track and let it start, `stop` (the first player's queue is then empty), `play` again in the same guild, and let the first player's queue stay empty for 100 seconds: its `destroy` deregisters the second player and disconnects its client while the second loop still holds the track, which it then cannot play | a player's `destroy` tears down only itself, and does nothing once another player has taken over the guild | medium (not executed) | Lifecycle.StaleDestroyScenario | Lifecycle.DestroyOwnSparesSuccessor |

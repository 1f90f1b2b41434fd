/** The cog's `players` dictionary: guild id to player instance, with
    `get_player` (get or create) and the registry half of `cleanup`
    (delete if present). Both music cogs carry the same code. A player
    instance is identified by the order in which it was constructed. */
module Registry {

  type GuildId = nat
  type PlayerRef = nat

  /** `byGuild` is the dictionary; `created` counts the `MusicPlayer`
      constructions so far, and the n-th construction is instance n. */
  datatype Players = Players(byGuild: map<GuildId, PlayerRef>, created: nat)

  /** Every registered instance was constructed, and no instance serves two
      guilds. */
  predicate Valid(r: Players) {
    && (forall g | g in r.byGuild :: r.byGuild[g] < r.created)
    && (forall g, h | g in r.byGuild && h in r.byGuild && g != h :: r.byGuild[g] != r.byGuild[h])
  }

  /** The registry of a freshly loaded cog. */
  const Empty: Players := Players(map[], 0)

  /** The player handed back, the registry afterwards, and whether a new
      player was constructed (which also starts its loop). */
  datatype Lookup = Lookup(player: PlayerRef, players: Players, constructed: bool)

  /** `get_player`: an existing player is returned as is; otherwise a new one
      is constructed and stored under the guild's id. */
  function GetPlayer(r: Players, g: GuildId): (l: Lookup)
    ensures g in l.players.byGuild && l.players.byGuild[g] == l.player
    ensures g in r.byGuild ==> l.player == r.byGuild[g] && l.players == r && !l.constructed
    ensures g !in r.byGuild ==> l.constructed && l.players.created == r.created + 1
    ensures forall h | h != g :: (h in l.players.byGuild <==> h in r.byGuild)
    ensures forall h | h != g && h in r.byGuild :: l.players.byGuild[h] == r.byGuild[h]
    ensures Valid(r) ==> Valid(l.players)
    ensures Valid(r) && l.constructed ==> forall h | h in r.byGuild :: r.byGuild[h] != l.player
  {
    if g in r.byGuild then Lookup(r.byGuild[g], r, false)
    else Lookup(r.created, Players(r.byGuild[g := r.created], r.created + 1), true)
  }

  /** The registry half of `cleanup`: `del players[guild.id]`, with the
      `KeyError` of an absent guild swallowed. */
  function Cleanup(r: Players, g: GuildId): (r': Players)
    ensures g !in r'.byGuild
    ensures forall h | h != g :: (h in r'.byGuild <==> h in r.byGuild)
    ensures forall h | h != g && h in r.byGuild :: r'.byGuild[h] == r.byGuild[h]
    ensures g !in r.byGuild ==> r' == r
    ensures r'.created == r.created
    ensures Valid(r) ==> Valid(r')
  {
    Players(r.byGuild - {g}, r.created)
  }

  /** Two successive `get_player` calls for one guild return the same
      instance, and the second changes nothing. */
  lemma GetPlayerTwice(r: Players, g: GuildId)
    ensures var first := GetPlayer(r, g);
            var second := GetPlayer(first.players, g);
            second.player == first.player && second.players == first.players && !second.constructed
  {
  }

  /** `cleanup` of an absent guild is a no-op, so running it twice (as
      `stop` followed by the idle `destroy` may do) is harmless. */
  lemma CleanupIdempotent(r: Players, g: GuildId)
    ensures Cleanup(Cleanup(r, g), g) == Cleanup(r, g)
  {
  }

  /** After `cleanup`, the next `get_player` for that guild constructs an
      instance never handed out before, so the removed player is not
      reused. */
  lemma CleanupThenGetIsFresh(r: Players, g: GuildId)
    requires Valid(r)
    ensures var l := GetPlayer(Cleanup(r, g), g);
            l.constructed && l.player >= r.created
            && forall h | h in r.byGuild :: r.byGuild[h] != l.player
  {
  }
}

/** The older MVG cog (`cogs/mvg/mvg_cog.py`). Its converter, ticker filter
    and ticker embed are the same code as the newer cog's and are modelled
    once, in `Mvg`. Its slim summary differs: a failed fetch is not caught,
    and the empty-list embed's footer reads "Letzte Aktualisierung um". */
module LegacyMvg {
  import opened Embeds
  import Mvg
  import opened Wrappers

  /** `generate_slim` of the older cog, for a list that was fetched. */
  function GenerateSlim(slims: seq<Mvg.Slim>): (e: Embed)
    ensures e.title == Some(Mvg.SlimTitle) && e.url == Some(Mvg.SlimUrl) && e.colour == Some(Yellow)
    ensures |slims| == 0 ==> e.description == Some(Mvg.NoDisruptionText) && e.fields == []
    ensures |slims| == 1 ==> e.description == Some(Mvg.SingleText)
    ensures |slims| > 1 ==> e.description == Some(Mvg.CountText(|slims|))
    ensures |e.fields| == |slims|
    ensures forall i | 0 <= i < |slims| :: e.fields[i] == Field("Störung", slims[i].title)
    ensures e.footer == Some("Letzte Aktualisierung um")
  {
    if |slims| == 0 then Mvg.NoDisruption("Letzte Aktualisierung um") else Mvg.SlimSummary(slims)
  }

  /** On a fetched list both cogs build the same summary except for the
      empty-list footer. */
  lemma AgreesWithNewerCog(slims: seq<Mvg.Slim>)
    ensures GenerateSlim(slims) == Mvg.GenerateSlim(Success(slims)).(footer := Some("Letzte Aktualisierung um"))
    ensures |slims| > 0 ==> GenerateSlim(slims) == Mvg.GenerateSlim(Success(slims))
  {
  }
}

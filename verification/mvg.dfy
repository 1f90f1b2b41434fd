/** The decisions of the MVG disruption-ticker cog
    (`bot/cogs/mvg/mvg_cog.py`): the transport-type converter, the ticker
    filter of the `meldungen` command, how a ticker becomes an embed, and
    the slim summary embed. The API client, Markdown conversion and date
    formatting are external: fetched data is an input, `convert` stands for
    `md.convert`, and dates arrive already formatted. */
module Mvg {
  import opened Wrappers
  import Text
  import opened Embeds

  /** Every spelling the converter accepts, after lowering, and the type it
      names. */
  const AliasTable: map<string, string> := map[
    "s" := "SBAHN", "sbahn" := "SBAHN",
    "b" := "BUS", "bus" := "BUS",
    "tram" := "TRAM", "t" := "TRAM",
    "u" := "METRO", "ubahn" := "METRO", "m" := "METRO", "metro" := "METRO"]

  /** `TypeOfTransportConverter.convert`. */
  function ConvertTransport(argument: string): (r: Option<string>)
    ensures r.Some? ==> r.value in {"SBAHN", "BUS", "TRAM", "METRO"}
  {
    var a := Text.Lower(argument);
    if a in ["s", "sbahn"] then Some("SBAHN")
    else if a in ["b", "bus"] then Some("BUS")
    else if a in ["tram", "t"] then Some("TRAM")
    else if a in ["u", "ubahn", "m", "metro"] then Some("METRO")
    else None
  }

  /** The converter is exactly a lookup of the lowered argument in the alias
      table, with None for anything else. */
  lemma ConvertMatchesTable(argument: string)
    ensures var a := Text.Lower(argument);
            ConvertTransport(argument) == if a in AliasTable then Some(AliasTable[a]) else None
  {
  }

  /** Converting an argument that is already lowered gives the same type. */
  lemma ConvertOfLowered(argument: string)
    ensures ConvertTransport(Text.Lower(argument)) == ConvertTransport(argument)
  {
    Text.LowerIdempotent(argument);
  }

  /** Case does not matter: arguments that lower to the same word convert
      alike. */
  lemma ConvertIgnoresCase(a: string, b: string)
    requires Text.Lower(a) == Text.Lower(b)
    ensures ConvertTransport(a) == ConvertTransport(b)
  {
  }

  datatype Line = Line(typeOfTransport: string, id: string)
  datatype Link = Link(name: string, href: string)

  /** An active period; the dates are already rendered with
      `%d.%m.%Y, %H:%M:%S`. */
  datatype Duration = Duration(fromDate: Option<string>, toDate: Option<string>)

  /** A ticker message; `kind` is the API's `type`, `downloadLinks` holds
      the download links' ids. */
  datatype Ticker = Ticker(
    title: string,
    text: string,
    kind: Option<string>,
    links: Option<seq<Link>>,
    incidents: Option<seq<string>>,
    lines: Option<seq<Line>>,
    downloadLinks: Option<seq<string>>,
    activeDuration: Option<Duration>)

  predicate LineMatches(line: Line, typeOf: string, lineId: Option<string>) {
    line.typeOfTransport == typeOf && (lineId.None? || line.id == lineId.value)
  }

  /** `check_type_of_transport`. Python's result is True, False, or, when the
      loop body never runs, an implicit None; `None` stands for the last. */
  function CheckTypeOfTransport(typeOf: Option<string>, lineId: Option<string>, t: Ticker): (r: Option<bool>)
    ensures typeOf.None? ==> r == Some(true)
    ensures typeOf.Some? && t.lines.None? ==> r == Some(false)
    ensures typeOf.Some? && t.lines == Some([]) ==> r.None?
    ensures r == Some(true) <==>
              || typeOf.None?
              || (t.lines.Some? && |t.lines.value| > 0 && LineMatches(t.lines.value[0], typeOf.value, lineId))
  {
    if typeOf.None? then Some(true)
    else if t.lines.None? then Some(false)
    else if |t.lines.value| == 0 then None
    else Some(LineMatches(t.lines.value[0], typeOf.value, lineId))
  }

  /** Only the first line is looked at: tickers that agree on it are
      filtered alike, whatever their other lines. */
  lemma FirstLineDecides(typeOf: Option<string>, lineId: Option<string>, t: Ticker, u: Ticker)
    requires t.lines.Some? && u.lines.Some? && |t.lines.value| > 0 && |u.lines.value| > 0
    requires t.lines.value[0] == u.lines.value[0]
    ensures CheckTypeOfTransport(typeOf, lineId, t) == CheckTypeOfTransport(typeOf, lineId, u)
  {
  }

  /** The tickers `meldungen` posts: those whose check is truthy, in API
      order. */
  function Announced(tickers: seq<Ticker>, typeOf: Option<string>, lineId: Option<string>): (r: seq<Ticker>)
    ensures |r| <= |tickers|
    ensures forall i | 0 <= i < |r| :: r[i] in tickers && CheckTypeOfTransport(typeOf, lineId, r[i]) == Some(true)
    ensures forall i | 0 <= i < |tickers| :: CheckTypeOfTransport(typeOf, lineId, tickers[i]) == Some(true) ==> tickers[i] in r
    ensures |tickers| == 1 ==> r == (if CheckTypeOfTransport(typeOf, lineId, tickers[0]) == Some(true) then tickers else [])
    decreases |tickers|
  {
    if |tickers| == 0 then []
    else
      var rest := Announced(tickers[1..], typeOf, lineId);
      if CheckTypeOfTransport(typeOf, lineId, tickers[0]) == Some(true) then [tickers[0]] + rest else rest
  }

  /** Posting is done ticker by ticker: the posts for two batches are the
      posts for the first followed by those for the second. With the
      single-ticker case of `Announced`, this fixes the order of the posts
      and posts each passing ticker exactly once. */
  lemma {:induction false} AnnouncedAppend(a: seq<Ticker>, b: seq<Ticker>, typeOf: Option<string>, lineId: Option<string>)
    ensures Announced(a + b, typeOf, lineId) == Announced(a, typeOf, lineId) + Announced(b, typeOf, lineId)
    decreases |a|
  {
    if |a| > 0 {
      assert (a + b)[0] == a[0] && (a + b)[1..] == a[1..] + b;
      AnnouncedHead(a, typeOf, lineId);
      AnnouncedHead(a + b, typeOf, lineId);
      AnnouncedAppend(a[1..], b, typeOf, lineId);
    } else {
      assert a + b == b;
    }
  }

  /** The first ticker is posted first, if at all. */
  lemma AnnouncedHead(tickers: seq<Ticker>, typeOf: Option<string>, lineId: Option<string>)
    requires |tickers| > 0
    ensures Announced(tickers, typeOf, lineId)
            == (if CheckTypeOfTransport(typeOf, lineId, tickers[0]) == Some(true) then [tickers[0]] else [])
               + Announced(tickers[1..], typeOf, lineId)
  {
  }

  /** Without a transport type every ticker is posted, in order. */
  lemma {:induction false} NoTypeAnnouncesAll(tickers: seq<Ticker>, lineId: Option<string>)
    ensures Announced(tickers, None, lineId) == tickers
    decreases |tickers|
  {
    if |tickers| > 0 {
      NoTypeAnnouncesAll(tickers[1..], lineId);
      assert [tickers[0]] + tickers[1..] == tickers;
    }
  }

  /** Red for a disruption, yellow for a planned change, blue otherwise. */
  function TickerColour(kind: Option<string>): (c: Colour)
    ensures c == Red <==> kind == Some("DISRUPTION")
    ensures c == Yellow <==> kind == Some("PLANED")
    ensures c == Blue <==> kind != Some("DISRUPTION") && kind != Some("PLANED")
  {
    if kind.Some? && kind.value == "DISRUPTION" then Red
    else if kind.Some? && kind.value == "PLANED" then Yellow
    else Blue
  }

  /** The embed URL and the link fields: the first link becomes the URL, the
      remaining links become fields, in order. */
  function LinkPart(links: Option<seq<Link>>): (r: (Option<string>, seq<Field>))
    ensures links.None? || links == Some([]) ==> r == (None, [])
    ensures links.Some? && |links.value| > 0 ==>
              && r.0 == Some(links.value[0].href)
              && |r.1| == |links.value| - 1
              && forall i | 0 <= i < |r.1| :: r.1[i] == Field(links.value[i + 1].name, links.value[i + 1].href)
  {
    if links.None? || |links.value| == 0 then (None, [])
    else
      var rest := links.value[1..];
      (Some(links.value[0].href), seq(|rest|, i requires 0 <= i < |rest| => Field(rest[i].name, rest[i].href)))
  }

  /** The incidents field: omitted when there are none or one of them is
      `UNKNOWN`; singular label exactly for one incident. */
  function IncidentFields(incidents: Option<seq<string>>): (fs: seq<Field>)
    ensures |fs| <= 1
    ensures |fs| == 1 <==> incidents.Some? && "UNKNOWN" !in incidents.value
    ensures |fs| == 1 ==> fs[0].value == Text.Join("\n", incidents.value)
    ensures |fs| == 1 ==> (fs[0].name == "Vorfall" <==> |incidents.value| == 1)
    ensures |fs| == 1 ==> (fs[0].name == "Vorfall" || fs[0].name == "Vorfälle")
  {
    if incidents.Some? && "UNKNOWN" !in incidents.value then
      [Field(if |incidents.value| == 1 then "Vorfall" else "Vorfälle", Text.Join("\n", incidents.value))]
    else []
  }

  /** `set_image` once per download link: the last one wins. */
  function ImageUrl(apiUrl: string, downloadLinks: Option<seq<string>>): (r: Option<string>)
    ensures r.Some? <==> downloadLinks.Some? && |downloadLinks.value| > 0
    ensures r.Some? ==> r.value == apiUrl + "api/ems/tickers/file/" + downloadLinks.value[|downloadLinks.value| - 1]
  {
    if downloadLinks.None? || |downloadLinks.value| == 0 then None
    else Some(apiUrl + "api/ems/tickers/file/" + downloadLinks.value[|downloadLinks.value| - 1])
  }

  /** The active-period field, present when the start date is known; an
      unknown end shows as `Ungewiss`. */
  function DurationFields(d: Option<Duration>): (fs: seq<Field>)
    ensures |fs| <= 1
    ensures |fs| == 1 <==> d.Some? && d.value.fromDate.Some?
    ensures |fs| == 1 ==> fs[0].name == "Aktive dauer"
    ensures |fs| == 1 ==>
              fs[0].value == "Von " + d.value.fromDate.value + " bis " + d.value.toDate.GetOr("Ungewiss")
    ensures d.Some? && d.value.fromDate.Some? && d.value.toDate.None? ==>
              fs == [Field("Aktive dauer", "Von " + d.value.fromDate.value + " bis Ungewiss")]
  {
    if d.Some? && d.value.fromDate.Some? then
      assert "Von " + d.value.fromDate.value + " bis " + "Ungewiss" == "Von " + d.value.fromDate.value + " bis Ungewiss";
      [Field("Aktive dauer", "Von " + d.value.fromDate.value + " bis " + d.value.toDate.GetOr("Ungewiss"))]
    else []
  }

  /** `ticker_to_embed`: link fields, then incidents, then the active
      period. */
  function TickerToEmbed(t: Ticker, apiUrl: string, convert: string -> string): (e: Embed)
    ensures e.title == Some(t.title) && e.description == Some(convert(t.text))
    ensures e.colour == Some(TickerColour(t.kind))
    ensures e.url == LinkPart(t.links).0
    ensures e.fields == LinkPart(t.links).1 + IncidentFields(t.incidents) + DurationFields(t.activeDuration)
    ensures e.image == ImageUrl(apiUrl, t.downloadLinks)
  {
    var (url, linkFields) := LinkPart(t.links);
    Embed(Some(t.title), Some(convert(t.text)), Some(TickerColour(t.kind)), url,
          linkFields + IncidentFields(t.incidents) + DurationFields(t.activeDuration),
          None, None, ImageUrl(apiUrl, t.downloadLinks))
  }

  /** The number of fields of a ticker embed: one per link beyond the first,
      at most one for incidents, at most one for the active period. */
  lemma TickerFieldCount(t: Ticker, apiUrl: string, convert: string -> string)
    ensures var n := |TickerToEmbed(t, apiUrl, convert).fields|;
            var links := if t.links.Some? && |t.links.value| > 0 then |t.links.value| - 1 else 0;
            links <= n <= links + 2
  {
  }

  datatype Slim = Slim(title: string)

  /** `httpx.HTTPError` while fetching the slim list. */
  datatype HttpError = HttpError

  const SlimTitle: string := "Betriebsmeldungen"
  const SlimUrl: string := "https://www.mvg.de/dienste/betriebsaenderungen.html"
  const ErrorText: string := "Es ist ein Fehler aufgetreten, bitte versuchen sie es später erneut"
  const NoDisruptionText: string :=
    "Es liegen momentan keine Störungen oder Betriebsmeldungen vor, die MVG wünscht ihnen eine gute fahrt."
  const SingleText: string := "Es liegt folgende Betriebsmeldung oder Störung vor"

  function CountText(n: nat): string {
    "Es liegen momentan " + Text.NatToString(n) + " Betriebsmeldungen oder Störungen vor."
  }

  function SlimFields(slims: seq<Slim>): (fs: seq<Field>)
    ensures |fs| == |slims|
    ensures forall i | 0 <= i < |slims| :: fs[i] == Field("Störung", slims[i].title)
  {
    seq(|slims|, i requires 0 <= i < |slims| => Field("Störung", slims[i].title))
  }

  /** The summary for a non-empty list: singular text for one item, the count
      otherwise, and one field per item. */
  function SlimSummary(slims: seq<Slim>): (e: Embed)
    requires |slims| > 0
    ensures e.description == Some(if |slims| == 1 then SingleText else CountText(|slims|))
    ensures e.fields == SlimFields(slims)
    ensures e.colour == Some(Yellow) && e.footer == Some("Letzte Aktualisierung um")
  {
    Embed(Some(SlimTitle), Some(if |slims| == 1 then SingleText else CountText(|slims|)), Some(Yellow),
          Some(SlimUrl), SlimFields(slims), Some("Letzte Aktualisierung um"), None, None)
  }

  /** The embed for an empty list. */
  function NoDisruption(footer: string): (e: Embed)
    ensures e.description == Some(NoDisruptionText) && e.fields == [] && e.colour == Some(Yellow)
  {
    Embed(Some(SlimTitle), Some(NoDisruptionText), Some(Yellow), Some(SlimUrl), [], Some(footer), None, None)
  }

  /** `generate_slim`: a fetch error yields an error embed instead of
      propagating; otherwise the zero, one or n variant. */
  function GenerateSlim(fetched: Result<seq<Slim>, HttpError>): (e: Embed)
    ensures e.title == Some(SlimTitle) && e.url == Some(SlimUrl)
    ensures fetched.Failure? ==> e.colour == Some(Red) && e.description == Some(ErrorText) && e.fields == []
    ensures fetched.Failure? ==> e.footer == Some("Letzte Aktualisierung")
    ensures fetched.Success? && |fetched.value| > 0 ==> e.footer == Some("Letzte Aktualisierung um")
    ensures fetched.Success? && |fetched.value| == 0 ==>
              e.description == Some(NoDisruptionText) && e.fields == [] && e.footer == Some("Letzte Aktualisierung")
    ensures fetched.Success? && |fetched.value| == 1 ==> e.description == Some(SingleText)
    ensures fetched.Success? && |fetched.value| > 1 ==> e.description == Some(CountText(|fetched.value|))
    ensures fetched.Success? ==> |e.fields| == |fetched.value|
    ensures fetched.Success? ==> forall i | 0 <= i < |e.fields| :: e.fields[i] == Field("Störung", fetched.value[i].title)
  {
    match fetched
    case Failure(_) =>
      Embed(Some(SlimTitle), Some(ErrorText), Some(Red), Some(SlimUrl), [], Some("Letzte Aktualisierung"), None, None)
    case Success(slims) =>
      if |slims| == 0 then NoDisruption("Letzte Aktualisierung") else SlimSummary(slims)
  }
}

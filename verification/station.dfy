/** The "station of the day" (`Station.get_station_of_the_day`): pick a
    country at random until it has photographed stations, pick one of them,
    and describe it in an embed plus up to four photo embeds. The API is
    external (`stationsOf` is what it answers per country code), and each
    `random.choice` is an arbitrary draw: draw `d` picks element
    `d % |xs|`. Photo timestamps are not modelled. */
module StationOfTheDay {
  import opened Wrappers
  import opened Embeds

  datatype Country = Country(code: string, name: string)
  datatype Photo = Photo(photographer: string, license: string, path: string)

  /** A station; `lat` and `lon` are their text renderings. */
  datatype Station = Station(title: string, inactive: bool, shortCode: Option<string>, lat: string, lon: string, photos: seq<Photo>)

  /** `random.choice(xs)`. */
  function Choose<T>(xs: seq<T>, draw: nat): (x: T)
    requires |xs| > 0
    ensures x in xs
  {
    xs[draw % |xs|]
  }

  /** Why no station was chosen: `random.choice` of no countries raises
      `IndexError`; `OutOfDraws` means the supplied draws ran out while every
      country drawn so far had no stations, i.e. the loop was still going. */
  datatype PickError = IndexError | OutOfDraws

  datatype Pick = Pick(country: Country, station: Station, fetches: nat)

  /** The selection loop: draw a country and fetch its stations; while the
      list is empty, draw again. Draw k picks the k-th country; `stationDraw`
      picks the station. */
  method PickStation(countries: seq<Country>, stationsOf: string -> seq<Station>, draws: seq<nat>, stationDraw: nat)
    returns (r: Result<Pick, PickError>)
    ensures |countries| == 0 ==> r == Failure(IndexError)
    ensures r.Success? ==> r.value.country in countries
    ensures r.Success? ==> |stationsOf(r.value.country.code)| > 0 && r.value.station in stationsOf(r.value.country.code)
    ensures r.Success? ==> 0 < r.value.fetches <= |draws|
                           && r.value.country == Choose(countries, draws[r.value.fetches - 1])
    ensures r.Success? ==> forall k | 0 <= k < r.value.fetches - 1 :: |stationsOf(Choose(countries, draws[k]).code)| == 0
    ensures r == Failure(OutOfDraws) ==> forall k | 0 <= k < |draws| :: |stationsOf(Choose(countries, draws[k]).code)| == 0
  {
    if |countries| == 0 {
      return Failure(IndexError);
    }
    if |draws| == 0 {
      return Failure(OutOfDraws);
    }
    var country := Choose(countries, draws[0]);
    var stations := stationsOf(country.code);
    var fetches := 1;
    while |stations| == 0
      invariant 1 <= fetches <= |draws|
      invariant country == Choose(countries, draws[fetches - 1])
      invariant stations == stationsOf(country.code)
      invariant forall k | 0 <= k < fetches - 1 :: |stationsOf(Choose(countries, draws[k]).code)| == 0
      decreases |draws| - fetches
    {
      if fetches == |draws| {
        return Failure(OutOfDraws);
      }
      country := Choose(countries, draws[fetches]);
      stations := stationsOf(country.code);
      fetches := fetches + 1;
    }
    r := Success(Pick(country, Choose(stations, stationDraw), fetches));
  }

  const ActiveText: string := "Die Station ist noch aktiv und wird genutzt."
  const InactiveText: string := "Die Station ist leider inaktiv und wird schon länger nicht mehr genutzt."

  function ActiveSentence(inactive: bool): (s: string)
    ensures s == InactiveText <==> inactive
    ensures s == ActiveText <==> !inactive
  {
    if inactive then InactiveText else ActiveText
  }

  /** A short code is shown unless it is missing, the placeholder `NULL` or
      `**`, or empty. */
  predicate HasShortCode(shortCode: Option<string>) {
    shortCode.Some? && shortCode.value != "NULL" && shortCode.value != "**" && shortCode.value != ""
  }

  function ShortCodeSentence(shortCode: Option<string>): (s: string)
    ensures s != "" <==> HasShortCode(shortCode)
    ensures HasShortCode(shortCode) ==>
              s == "Sie besitzt die Abkürzung **" + shortCode.value + "**, welche Bahn angestelten genutzt wird."
  {
    if HasShortCode(shortCode) then
      "Sie besitzt die Abkürzung **" + shortCode.value + "**, welche Bahn angestelten genutzt wird."
    else ""
  }

  /** The placeholders never produce an abbreviation sentence; any other
      non-empty code does. */
  lemma ShortCodePlaceholders(code: string)
    ensures ShortCodeSentence(None) == "" && ShortCodeSentence(Some("NULL")) == ""
    ensures ShortCodeSentence(Some("**")) == "" && ShortCodeSentence(Some("")) == ""
    ensures code != "" && code != "NULL" && code != "**" ==> ShortCodeSentence(Some(code)) != ""
  {
  }

  function Description(country: Country, station: Station): string {
    "Diese wunder schöne Station aus " + country.name + ", ist heute die Station des Tages. "
    + "Sie befindet sich genau [hier](https://www.google.com/maps/@" + station.lat + "," + station.lon
    + ",15z). " + ActiveSentence(station.inactive) + " " + ShortCodeSentence(station.shortCode)
  }

  /** The main embed: the station's title and the description above. */
  function StationEmbed(country: Country, station: Station): (e: Embed)
    ensures e.title == Some(station.title) && e.colour == Some(DarkRed)
    ensures e.description == Some(Description(country, station))
  {
    Plain(DarkRed).(title := Some(station.title), description := Some(Description(country, station)))
  }

  const PhotoUrlPrefix: string := "https://apis.deutschebahn.com/db-api-marketplace/apis/api.railway-stations.org/photos/"

  function PhotoEmbed(photo: Photo): (e: Embed)
    ensures e.author == Some("Fotograf: " + photo.photographer)
    ensures e.footer == Some("LIZENZ: " + photo.license)
    ensures e.image == Some(PhotoUrlPrefix + photo.path)
    ensures e.fields == []
  {
    Plain(DarkRed).(author := Some("Fotograf: " + photo.photographer),
                    footer := Some("LIZENZ: " + photo.license),
                    image := Some(PhotoUrlPrefix + photo.path))
  }

  function Min(a: nat, b: nat): nat {
    if a <= b then a else b
  }

  /** One embed for each of the first four photos, in order. */
  function PhotoEmbeds(photos: seq<Photo>): (es: seq<Embed>)
    ensures |es| == Min(4, |photos|)
    ensures forall i | 0 <= i < |es| :: es[i] == PhotoEmbed(photos[i])
  {
    var n := Min(4, |photos|);
    seq(n, i requires 0 <= i < n => PhotoEmbed(photos[i]))
  }

  /** Photos beyond the fourth never change the result. */
  lemma PhotosBeyondFourIgnored(photos: seq<Photo>, more: seq<Photo>)
    requires |photos| >= 4
    ensures PhotoEmbeds(photos + more) == PhotoEmbeds(photos)
  {
    assert PhotoEmbeds(photos + more) == PhotoEmbeds(photos) by {
      forall i | 0 <= i < 4
        ensures PhotoEmbeds(photos + more)[i] == PhotoEmbeds(photos)[i]
      {
        assert (photos + more)[i] == photos[i];
      }
    }
  }

  /** The whole announcement for a successful pick. */
  function Announcement(p: Pick): (r: (Embed, seq<Embed>))
    ensures r.0 == StationEmbed(p.country, p.station)
    ensures r.1 == PhotoEmbeds(p.station.photos)
    ensures |r.1| <= 4 && |r.1| == Min(4, |p.station.photos|)
  {
    (StationEmbed(p.country, p.station), PhotoEmbeds(p.station.photos))
  }
}

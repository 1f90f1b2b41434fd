/** Turning the extractor's output into playable sources
    (`AudioSource._create_source` and `AudioSource.create_sources`). The
    extractor itself, `prepare_filename` and FFmpeg are external: the
    extractor's result is an input, and `prepare` stands for
    `ytdl.prepare_filename`. */
module Resolver {
  import opened Wrappers

  /** An extractor metadata value. */
  datatype Value = Text(s: string) | Number(n: int)

  type Info = map<string, Value>

  type MemberId = nat
  type TextChannelId = nat

  /** The invoking command's author and text channel. */
  datatype Context = Context(author: MemberId, channel: TextChannelId)

  /** A playable source: the merged metadata, the FFmpeg input, and who
      asked for it where. `title`, `url`, `webpage_url`, ... are
      `info.get(key)`. */
  datatype AudioSource = AudioSource(info: Info, input: Value, requester: MemberId, channel: TextChannelId) {
    function Get(key: string): Option<Value> {
      if key in info then Some(info[key]) else None
    }
    function Title(): Option<Value> { Get("title") }
    function WebPage(): Option<Value> { Get("webpage_url") }
  }

  /** `YTDLError` when nothing matched; `KeyError` when the processed info
      lacks a key the code indexes. */
  datatype ResolveError = YTDLError | KeyError(key: string)

  /** The extractor's result dictionary: its own keys and, for a playlist,
      its `"entries"`. */
  datatype Extracted = Extracted(info: Info, entries: Option<seq<Info>>)

  /** `info = default_info.copy(); info.update(processed_info)`: the copy is
      a fresh value, so the defaults passed in are left as they were. */
  function MergeInfo(defaults: Info, processed: Info): (info: Info)
    ensures info.Keys == defaults.Keys + processed.Keys
    ensures forall k | k in processed :: info[k] == processed[k]
    ensures forall k | k in defaults && k !in processed :: info[k] == defaults[k]
  {
    defaults + processed
  }

  /** `_create_source`: in stream mode the FFmpeg input is the processed
      `"url"` (a missing key raises `KeyError`), otherwise the prepared
      file name. */
  function CreateSource(ctx: Context, processed: Info, stream: bool, defaults: Info, prepare: Info -> Value): (r: Result<AudioSource, ResolveError>)
    ensures r.Failure? <==> stream && "url" !in processed
    ensures r.Failure? ==> r.error == KeyError("url")
    ensures r.Success? ==> r.value.info == MergeInfo(defaults, processed)
    ensures r.Success? && stream ==> r.value.input == processed["url"]
    ensures r.Success? && !stream ==> r.value.input == prepare(processed)
    ensures r.Success? ==> r.value.requester == ctx.author && r.value.channel == ctx.channel
  {
    if stream && "url" !in processed then Failure(KeyError("url"))
    else
      var input := if stream then processed["url"] else prepare(processed);
      Success(AudioSource(MergeInfo(defaults, processed), input, ctx.author, ctx.channel))
  }

  /** What the `create_sources` generator yields before it stops, and the
      exception it stops with, if any. */
  datatype Yield = Yield(sources: seq<AudioSource>, error: Option<ResolveError>)

  /** The entries loop: one source per entry, in entry order, up to the first
      entry whose source cannot be built. */
  function FanOut(ctx: Context, entries: seq<Info>, stream: bool, defaults: Info, prepare: Info -> Value): (y: Yield)
    ensures |y.sources| <= |entries|
    ensures forall i | 0 <= i < |y.sources| :: CreateSource(ctx, entries[i], stream, defaults, prepare) == Success(y.sources[i])
    ensures y.error.None? <==> |y.sources| == |entries|
    ensures y.error.Some? ==> CreateSource(ctx, entries[|y.sources|], stream, defaults, prepare) == Failure(y.error.value)
    decreases |entries|
  {
    if |entries| == 0 then Yield([], None)
    else match CreateSource(ctx, entries[0], stream, defaults, prepare)
      case Failure(e) => Yield([], Some(e))
      case Success(s) =>
        var rest := FanOut(ctx, entries[1..], stream, defaults, prepare);
        var y := Yield([s] + rest.sources, rest.error);
        assert forall i | 0 <= i < |y.sources| :: CreateSource(ctx, entries[i], stream, defaults, prepare) == Success(y.sources[i]) by {
          forall i | 0 <= i < |y.sources|
            ensures CreateSource(ctx, entries[i], stream, defaults, prepare) == Success(y.sources[i])
          {
            if i > 0 {
              assert y.sources[i] == rest.sources[i - 1] && entries[i] == entries[1..][i - 1];
            }
          }
        }
        assert rest.error.Some? ==> entries[|y.sources|] == entries[1..][|rest.sources|];
        y
  }

  /** `create_sources`: nothing found raises `YTDLError` before anything is
      yielded; a single result yields one source; a playlist fans out. */
  function CreateSources(ctx: Context, data: Option<Extracted>, stream: bool, defaults: Info, prepare: Info -> Value): (y: Yield)
    ensures data.None? ==> y == Yield([], Some(YTDLError))
    ensures data.Some? && data.value.entries.None? ==>
              match CreateSource(ctx, data.value.info, stream, defaults, prepare)
              case Success(s) => y == Yield([s], None)
              case Failure(e) => y == Yield([], Some(e))
    ensures data.Some? && data.value.entries.None? ==>
              (y.error.Some? <==> stream && "url" !in data.value.info)
              && (y.error.Some? ==> y == Yield([], Some(KeyError("url"))))
    ensures data.Some? && data.value.entries.Some? ==> y == FanOut(ctx, data.value.entries.value, stream, defaults, prepare)
    ensures data.Some? && data.value.entries.Some? ==> |y.sources| <= |data.value.entries.value|
    ensures forall i | 0 <= i < |y.sources| :: y.sources[i].requester == ctx.author && y.sources[i].channel == ctx.channel
  {
    match data
    case None => Yield([], Some(YTDLError))
    case Some(d) =>
      if d.entries.None? then
        match CreateSource(ctx, d.info, stream, defaults, prepare)
        case Success(s) => Yield([s], None)
        case Failure(e) => Yield([], Some(e))
      else FanOut(ctx, d.entries.value, stream, defaults, prepare)
  }

  /** A single result with a `"url"` yields exactly one source carrying the
      merged metadata, streamed from that url. */
  lemma SingleResultYieldsOne(ctx: Context, data: Extracted, defaults: Info, prepare: Info -> Value)
    requires data.entries.None? && "url" in data.info
    ensures var y := CreateSources(ctx, Some(data), true, defaults, prepare);
            y.error.None? && |y.sources| == 1
            && y.sources[0].info == MergeInfo(defaults, data.info)
            && y.sources[0].input == data.info["url"]
  {
  }

  /** A playlist whose entries all carry a `"url"` yields one source per
      entry, in entry order; an empty playlist yields none. */
  lemma PlaylistYieldsEachEntry(ctx: Context, data: Extracted, defaults: Info, prepare: Info -> Value)
    requires data.entries.Some?
    requires forall i | 0 <= i < |data.entries.value| :: "url" in data.entries.value[i]
    ensures var y := CreateSources(ctx, Some(data), true, defaults, prepare);
            y.error.None? && |y.sources| == |data.entries.value|
            && forall i | 0 <= i < |y.sources| ::
                 y.sources[i].info == MergeInfo(defaults, data.entries.value[i])
                 && y.sources[i].input == data.entries.value[i]["url"]
  {
  }
}

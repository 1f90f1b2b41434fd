/** The parts of a Discord embed that the bot's decisions determine.
    Timestamps are not modelled. Discord's `Embed(colour=..., color=...)`
    keeps `colour` when it is given, so only one colour is recorded. */
module Embeds {
  import opened Wrappers

  datatype Colour = Red | Yellow | Blue | DarkRed

  datatype Field = Field(name: string, value: string)

  datatype Embed = Embed(
    title: Option<string>,
    description: Option<string>,
    colour: Option<Colour>,
    url: Option<string>,
    fields: seq<Field>,
    footer: Option<string>,
    author: Option<string>,
    image: Option<string>)

  /** An embed with only a colour, as `Embed(colour=...)` creates it. */
  function Plain(colour: Colour): Embed {
    Embed(None, None, Some(colour), None, [], None, None, None)
  }
}

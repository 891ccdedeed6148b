/** The endpoint methods of the client as a static table of descriptors,
    grouped as the remote API groups them. */
module Endpoints {
  import opened PyValues

  /** A URL path as its segments: `["generators", "blame"]` is `/generators/blame`. */
  function PathOf(segments: seq<string>): (r: string)
    ensures |segments| > 0 ==> |r| > 0 && r[0] == '/'
    decreases |segments|
  {
    if segments == [] then "" else "/" + segments[0] + PathOf(segments[1..])
  }

  /** The one- and two-segment paths the table uses. */
  lemma PathOfShort(a: string, b: string)
    ensures PathOf([a]) == "/" + a
    ensures PathOf([a, b]) == "/" + a + "/" + b
  {
    assert PathOf([b]) == "/" + b + PathOf([]);
    assert [a, b][1..] == [b];
  }

  /** Where an endpoint can be called: in both environments (with its flat
      production path), or only in development (with the word that names it
      in the `NotAvailable` message). */
  datatype Availability = Everywhere(prodPath: seq<string>) | DevOnly(title: string)

  /** One `key={}` of a query string, filled from the argument at `arg`. */
  datatype Field = Field(key: string, arg: nat)

  /** The argument check an endpoint runs besides the availability check:
      `Range` runs `br_invalid` BEFORE the availability check, `Choice`
      requires an exact member of `allowed` AFTER it. */
  datatype Gate =
    | Open
    | Range(arg: nat, what: string)
    | Choice(arg: nat, allowed: seq<string>, message: string)

  /** The style argument of a text endpoint, matched after lowering. */
  datatype Style = Unstyled | Styled(arg: nat, allowed: seq<string>, message: string)

  /** The primitive an endpoint delegates to: `_get` with its development path
      and query fields, or `_text` with its route and text argument. */
  datatype Target =
    | Image(devPath: seq<string>, fields: seq<Field>)
    | TextOf(route: string, textArg: nat, textMessage: string, style: Style)

  /** One endpoint method: its Python name, its positional parameters after
      `self` and their trailing defaults, and what it does with them. */
  datatype Descriptor = Descriptor(
    name: string,
    params: seq<string>,
    defaults: seq<Value>,
    availability: Availability,
    gate: Gate,
    target: Target)

  /** Generators served in both environments. */
  datatype ClassicGenerator =
    | Blame | Triggered | Wanted | Pls | Snapchat | Achievement | Thesearch | Beautiful
    | Facepalm | Respect | Stepped | Tattoo | Vault | Batslap | Superpunch | Slap | Crush

  /** Development-only generators that take one avatar link and nothing else. */
  datatype AvatarFilter =
    | Challenger | Karen | Bobross | Heavyfear | Painting | WaifuInsult | Wreckit | Garbage
    | Time | Ignore | Hide | Hates | Girls | Zerotwo | Religion | Sniper

  /** Development-only generators that take an avatar link and a caption. */
  datatype Captioned = Missing | Steam | Suggestion | Kirby | Virtual | Changemymind

  /** The other development-only generators. */
  datatype DevGenerator = Confused | SuperSpank | TinderMatch | Colour | Color | Coffee | Osu

  datatype Overlay = Approved | Rainbow | Rejected

  datatype PixelEffect =
    | Brightness | Darkness | Greyscale | Invert | InvertGreyscale | Sepia | Silhouette
    | InvertThreshold | Threshold

  datatype TextStyle = Owoify | Mock | Tiny | Cursive | Vapor

  /** The endpoint methods that follow the common pattern; `welcome`,
      `goodbye` and `greeting` have calls of their own. */
  datatype Endpoint =
    | Classic(classic: ClassicGenerator)
    | Filter(filter: AvatarFilter)
    | Caption(captioned: Captioned)
    | Generator(generator: DevGenerator)
    | Overlaid(overlay: Overlay)
    | Pixel(effect: PixelEffect)
    | Styler(style: TextStyle)

  /** Every query field reads one of the method's `n` parameters. */
  predicate FieldsWithin(fields: seq<Field>, n: nat) {
    |fields| > 0 && forall k :: 0 <= k < |fields| ==> fields[k].arg < n
  }

  /** Every index a descriptor uses names one of its parameters, image
      endpoints send at least one field, and text endpoints are dev-only. */
  predicate WellFormed(d: Descriptor) {
    && |d.defaults| <= |d.params|
    && (d.gate.Range? ==> d.gate.arg < |d.params|)
    && (d.gate.Choice? ==> d.gate.arg < |d.params|)
    && match d.target
       case Image(_, fields) => FieldsWithin(fields, |d.params|)
       case TextOf(_, textArg, _, style) =>
         d.availability.DevOnly? && textArg < |d.params| && (style.Styled? ==> style.arg < |d.params|)
  }

  /** The query `?p1={}&p2={}...` that sends every parameter under its own name. */
  function SendAll(params: seq<string>): (fields: seq<Field>)
    requires |params| > 0
    ensures FieldsWithin(fields, |params|) && |fields| == |params|
    ensures forall k :: 0 <= k < |params| ==> fields[k] == Field(params[k], k)
  {
    seq(|params|, k requires 0 <= k < |params| => Field(params[k], k))
  }

  /** A generator served at `/generators/<name>` in development and at
      `/<name>` in production, sending all its parameters. */
  function Dual(name: string, params: seq<string>): (d: Descriptor)
    requires |params| > 0
    ensures WellFormed(d) && d.name == name && d.params == params && d.gate.Open?
    ensures d.availability == Everywhere([name])
    ensures d.target == Image(["generators", name], SendAll(params))
  {
    Descriptor(name, params, [], Everywhere([name]), Open, Image(["generators", name], SendAll(params)))
  }

  /** A development-only image endpoint at `devPath` sending all its parameters. */
  function DevImage(name: string, params: seq<string>, title: string, devPath: seq<string>): (d: Descriptor)
    requires |params| > 0
    ensures WellFormed(d) && d.availability == DevOnly(title) && d.gate.Open?
    ensures d.target == Image(devPath, SendAll(params))
  {
    Descriptor(name, params, [], DevOnly(title), Open, Image(devPath, SendAll(params)))
  }

  /** A development-only image endpoint whose query is not simply its parameters. */
  function DevCustom(name: string, params: seq<string>, title: string, devPath: seq<string>, fields: seq<Field>): (d: Descriptor)
    requires FieldsWithin(fields, |params|)
    ensures WellFormed(d) && d.availability == DevOnly(title) && d.gate.Open?
    ensures d.target == Image(devPath, fields)
  {
    Descriptor(name, params, [], DevOnly(title), Open, Image(devPath, fields))
  }

  /** A development-only generator with a second, themed parameter that has
      a default and must be exactly one of the allowed themes. */
  function Themed(name: string, param: string, themeParam: string, defaultTheme: string, title: string,
                  devPath: seq<string>, allowed: seq<string>, message: string): (d: Descriptor)
    ensures WellFormed(d) && d.availability == DevOnly(title) && d.gate == Choice(1, allowed, message)
    ensures d.params == [param, themeParam] && d.defaults == [Str(defaultTheme)]
    ensures d.target == Image(devPath, [Field(param, 0), Field(themeParam, 1)])
  {
    Descriptor(name, [param, themeParam], [Str(defaultTheme)], DevOnly(title), Choice(1, allowed, message),
               Image(devPath, [Field(param, 0), Field(themeParam, 1)]))
  }

  /** A development-only effect at `/effects/<segment>` whose second argument,
      the intensity, is range-checked. */
  function Ranged(name: string, param: string, title: string, what: string, segment: string): (d: Descriptor)
    ensures WellFormed(d) && d.availability == DevOnly(title) && d.gate == Range(1, what)
    ensures d.target == Image(["effects", segment], [Field("avatar", 0), Field(param, 1)])
  {
    Descriptor(name, ["avatar", param], [], DevOnly(title), Range(1, what),
               Image(["effects", segment], [Field("avatar", 0), Field(param, 1)]))
  }

  /** A development-only text endpoint taking the text alone. */
  function PlainText(name: string, title: string, route: string, message: string): (d: Descriptor)
    ensures WellFormed(d) && d.availability == DevOnly(title) && d.gate.Open?
    ensures d.target == TextOf(route, 0, message, Unstyled)
  {
    Descriptor(name, ["text"], [], DevOnly(title), Open, TextOf(route, 0, message, Unstyled))
  }

  /** A development-only text endpoint taking the text and a style. */
  function StyledText(name: string, title: string, route: string, message: string,
                      allowed: seq<string>, styleMessage: string): (d: Descriptor)
    ensures WellFormed(d) && d.availability == DevOnly(title) && d.gate.Open?
    ensures d.target == TextOf(route, 0, message, Styled(1, allowed, styleMessage))
  {
    Descriptor(name, ["text", "style"], [], DevOnly(title), Open,
               TextOf(route, 0, message, Styled(1, allowed, styleMessage)))
  }

  /** The generators served in both environments. */
  function DescribeClassic(g: ClassicGenerator): (d: Descriptor)
    ensures WellFormed(d) && d.gate.Open? && d.availability.Everywhere?
    ensures d.target.Image? && d.target.devPath == ["generators"] + d.availability.prodPath
    ensures d.availability.prodPath == [d.name] && |d.params| > 0 && d.defaults == []
    ensures d.target.fields == SendAll(d.params)
  {
    match g
    case Blame => Dual("blame", ["name"])
    case Triggered => Dual("triggered", ["avatar"])
    case Wanted => Dual("wanted", ["avatar"])
    case Pls => Dual("pls", ["name"])
    case Snapchat => Dual("snapchat", ["text"])
    case Achievement => Dual("achievement", ["avatar", "text"])
    case Thesearch => Dual("thesearch", ["avatar", "text"])
    case Beautiful => Dual("beautiful", ["avatar"])
    case Facepalm => Dual("facepalm", ["avatar"])
    case Respect => Dual("respect", ["avatar"])
    case Stepped => Dual("stepped", ["avatar"])
    case Tattoo => Dual("tattoo", ["avatar"])
    case Vault => Dual("vault", ["avatar"])
    case Batslap => Dual("batslap", ["slapper", "slapped"])
    case Superpunch => Dual("superpunch", ["puncher", "punched"])
    case Slap => Dual("slap", ["slapper", "slapped"])
    case Crush => Dual("crush", ["crusher", "crush"])
  }

  /** Name, message title and path segment of each avatar filter. */
  function FilterEntry(f: AvatarFilter): (string, string, string) {
    match f
    case Challenger => ("challenger", "Challenger", "challenger")
    case Karen => ("karen", "Karen", "karen")
    case Bobross => ("bobross", "Bobross", "bobross")
    case Heavyfear => ("heavyfear", "Heavyfear", "heavyfear")
    case Painting => ("painting", "Painting", "painting")
    case WaifuInsult => ("waifu_insult", "Waifuinsult", "waifuinsult")
    case Wreckit => ("wreckit", "Wreckit", "wreckit")
    case Garbage => ("garbage", "Garbage", "garbage")
    case Time => ("time", "Time", "time")
    case Ignore => ("ignore", "Ignore", "ignore")
    case Hide => ("hide", "Hide", "hide")
    case Hates => ("hates", "Hates", "hates")
    case Girls => ("girls", "Girls", "girls")
    case Zerotwo => ("zerotwo", "Zero Two", "02picture")
    case Religion => ("religion", "Religion", "religion")
    case Sniper => ("sniper", "Sniper", "sniper")
  }

  /** The avatar filters: development-only, at `/generators/<segment>`,
      sending `?avatar={}`. */
  function DescribeFilter(f: AvatarFilter): (d: Descriptor)
    ensures WellFormed(d) && d.availability.DevOnly? && d.gate.Open?
    ensures d.params == ["avatar"] && d.target.Image? && d.target.fields == [Field("avatar", 0)]
    ensures |d.target.devPath| == 2 && d.target.devPath[0] == "generators"
  {
    var (name, title, segment) := FilterEntry(f);
    DevImage(name, ["avatar"], title, ["generators", segment])
  }

  /** The captioned generators, all under `/generators/`. `virtual` takes a
      caption but does not send it. */
  function DescribeCaptioned(g: Captioned): (d: Descriptor)
    ensures WellFormed(d) && d.availability.DevOnly? && d.gate.Open? && d.target.Image?
    ensures d.params == ["avatar", "text"]
    ensures |d.target.devPath| == 2 && d.target.devPath[0] == "generators"
  {
    match g
    case Missing => DevImage("missing", ["avatar", "text"], "Missing", ["generators", "missing"])
    case Steam => DevImage("steam", ["avatar", "text"], "Steam", ["generators", "steam"])
    case Suggestion => DevCustom("suggestion", ["avatar", "text"], "Suggestion", ["generators", "suggestion"],
                                 [Field("avatar", 0), Field("suggestion", 1)])
    case Kirby => DevImage("kirby", ["avatar", "text"], "Kirby School", ["generators", "kirby"])
    case Virtual => DevCustom("virtual", ["avatar", "text"], "Virtual", ["generators", "vr"], [Field("avatar", 0)])
    case Changemymind => DevImage("changemymind", ["avatar", "text"], "Change my mind", ["generators", "changemymind"])
  }

  /** The other development-only generators, all under `/generators/`.
      `color` is a method of its own with parameter `color`, which it passes
      on to `colour`: same title, path and query key. */
  function DescribeGenerator(g: DevGenerator): (d: Descriptor)
    ensures WellFormed(d) && d.availability.DevOnly? && d.target.Image?
    ensures |d.target.devPath| == 2 && d.target.devPath[0] == "generators"
    ensures !d.gate.Range?
  {
    match g
    case Confused => DevImage("confused", ["avatar", "photo"], "Confused", ["generators", "confused"])
    case SuperSpank => DevImage("super_spank", ["spanker", "spanked"], "Spanked", ["generators", "superspank"])
    case TinderMatch => DevImage("tinder_match", ["avatar", "match"], "Tinder Match", ["generators", "tinder"])
    case Colour => DevImage("colour", ["colour"], "Colour", ["generators", "colour"])
    case Color => DevCustom("color", ["color"], "Colour", ["generators", "colour"], [Field("colour", 0)])
    case Coffee => DevImage("coffee", ["text1", "text2"], "Coffee", ["generators", "coffee"])
    case Osu => Themed("osu", "user", "theme", "dark", "osu", ["generators", "osu"], ["dark", "light", "darker"],
                       "Invalid theme, theme can only be one of dark, light, darker")
  }

  /** The development-only overlays, all under `/overlays/`. */
  function DescribeOverlay(o: Overlay): (d: Descriptor)
    ensures WellFormed(d) && d.availability.DevOnly? && d.gate.Open? && d.target.Image?
    ensures |d.target.devPath| == 2 && d.target.devPath[0] == "overlays"
  {
    match o
    case Approved => DevImage("approved", ["avatar"], "Approved", ["overlays", "approved"])
    case Rainbow => DevImage("rainbow", ["avatar"], "Rainbow", ["overlays", "rainbow"])
    case Rejected => DevImage("rejected", ["avatar"], "Rejected", ["overlays", "rejected"])
  }

  /** The development-only pixel effects, all under `/effects/`; exactly the
      four with an intensity check its range. */
  function DescribeEffect(f: PixelEffect): (d: Descriptor)
    ensures WellFormed(d) && d.availability.DevOnly? && d.target.Image?
    ensures |d.target.devPath| == 2 && d.target.devPath[0] == "effects"
    ensures d.gate.Range? <==> f in {Brightness, Darkness, InvertThreshold, Threshold}
    ensures d.gate.Range? ==> d.gate.arg == 1 && |d.target.fields| == 2 && d.target.fields[1] == Field(d.params[1], 1)
  {
    match f
    case Brightness => Ranged("brightness", "brightness", "Brightness", "brightness", "brightness")
    case Darkness => Ranged("darkness", "darkness", "Darkness", "darkness", "darkness")
    case Greyscale => DevImage("greyscale", ["avatar"], "Greyscale", ["effects", "greyscale"])
    case Invert => DevImage("invert", ["avatar"], "Invert", ["effects", "invert"])
    case InvertGreyscale => DevImage("invert_greyscale", ["avatar"], "InvertGreyscale", ["effects", "invertGreyscale"])
    case Sepia => DevImage("sepia", ["avatar"], "Sepia", ["effects", "sepia"])
    case Silhouette => DevImage("silhouette", ["avatar"], "Silhouette", ["effects", "silhouette"])
    case InvertThreshold => Ranged("invert_threshold", "threshold", "Threshold", "threshold", "invertThreshold")
    case Threshold => Ranged("threshold", "threshold", "Threshold", "threshold", "threshold")
  }

  /** The development-only text endpoints, served by `_text`. */
  function DescribeText(t: TextStyle): (d: Descriptor)
    ensures WellFormed(d) && d.availability.DevOnly? && d.gate.Open? && d.target.TextOf?
    ensures d.target.textArg == 0
    ensures d.target.style.Styled? <==> t in {Tiny, Cursive}
  {
    match t
    case Owoify => PlainText("owoify", "owoify", "owoify", "Text must be string")
    case Mock => PlainText("mock", "Mock", "mock", "Text must be a string")
    case Tiny => StyledText("tiny", "Tiny text", "tinytext", "Text must be a string",
                            ["tiny", "superscript", "subscript"], "Style must be one of tiny, superscript, subscript")
    case Cursive => StyledText("cursive", "Cursive", "cursive", "Text must be a string",
                               ["bold", "normal"], "Style must be one of bold or normal")
    case Vapor => PlainText("vapor", "Vapor", "vaporwave", "Text must be a string")
  }

  /** The table. Every entry is well formed; exactly the classic generators
      are served in production, each with its development path nesting its
      production path `/<name>` under `/generators`; the range-checked entries
      are development-only effects under `/effects/`. */
  function Describe(e: Endpoint): (d: Descriptor)
    ensures WellFormed(d)
    ensures d.availability.Everywhere? <==> e.Classic?
    ensures d.availability.Everywhere? ==>
      && d.target.Image? && d.gate.Open?
      && d.target.devPath == ["generators"] + d.availability.prodPath
      && d.availability.prodPath == [d.name]
    ensures d.gate.Range? ==>
      && d.availability.DevOnly? && d.target.Image?
      && |d.target.devPath| == 2 && d.target.devPath[0] == "effects"
  {
    match e
    case Classic(g) => DescribeClassic(g)
    case Filter(f) => DescribeFilter(f)
    case Caption(g) => DescribeCaptioned(g)
    case Generator(g) => DescribeGenerator(g)
    case Overlaid(o) => DescribeOverlay(o)
    case Pixel(f) => DescribeEffect(f)
    case Styler(t) => DescribeText(t)
  }
}

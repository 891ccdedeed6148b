/** What one call of an endpoint method does before any network traffic:
    bind its arguments, run its checks in the source's order, and build the
    request it would issue, or name the exception it raises instead. */
module Dispatch {
  import opened Results
  import opened Errors
  import opened PyValues
  import opened Validation
  import opened Quoting
  import opened Config
  import opened Rewrite
  import opened Requests
  import opened Endpoints

  /** A call on the client. Table endpoints take positional arguments;
      `welcome`, `goodbye` and `greeting` have their own shapes, with `None`
      standing for an omitted defaulted argument. */
  datatype Call =
    | Invoke(endpoint: Endpoint, args: seq<Value>)
    | Welcome(avatar: Value, isBot: Value, usertag: Value, guild: Value, version: Option<Value>)
    | Goodbye(avatar: Value, isBot: Value, usertag: Value, version: Option<Value>)
    | Greeting(kind: Value, variant: Value, bot: Value, avatar: Value, username: Value,
               discriminator: Value, guildName: Value, memberCount: Value, message: Option<Value>)

  /** The message of the `TypeError` `urllib.parse.quote` raises for a non-string. */
  const QuoteTypeMessage := "quote_from_bytes() expected bytes"

  /** The version both deprecated greeting calls default to and serve in production. */
  const Gearz := "gearz"

  /** Python accepts `n` positional arguments: every parameter without a
      default must be given, and no more than all parameters. */
  predicate ArityFits(d: Descriptor, n: nat) {
    |d.params| - |d.defaults| <= n <= |d.params|
  }

  /** Bind positional arguments to parameters, filling the omitted trailing
      ones from their defaults, or fail as Python does with a `TypeError`. */
  function Bind(d: Descriptor, args: seq<Value>): (r: Result<seq<Value>, Error>)
    requires |d.defaults| <= |d.params|
    ensures r.Ok? <==> ArityFits(d, |args|)
    ensures r.Err? ==> r.error == WrongArity(d.name)
    ensures r.Ok? ==> |r.value| == |d.params| && r.value[..|args|] == args
    ensures r.Ok? ==> forall k :: |args| <= k < |d.params| ==>
      r.value[k] == d.defaults[k - (|d.params| - |d.defaults|)]
  {
    if ArityFits(d, |args|) then
      var full := args + d.defaults[|d.defaults| - (|d.params| - |args|)..];
      assert full[..|args|] == args;
      Ok(full)
    else Err(WrongArity(d.name))
  }

  /** A call that gives every parameter binds exactly its own arguments. */
  lemma BindAll(d: Descriptor, args: seq<Value>)
    requires |d.defaults| <= |d.params| == |args|
    ensures Bind(d, args) == Ok(args)
  {
    assert args + d.defaults[|d.defaults|..] == args;
  }

  /** Every field reads one of the bound arguments. */
  predicate Readable(fields: seq<Field>, args: seq<Value>) {
    forall k :: 0 <= k < |fields| ==> fields[k].arg < |args|
  }

  /** `key1={}&key2={}...` filled by `str.format`, i.e. with `str()` of each argument. */
  function Pairs(fields: seq<Field>, args: seq<Value>): (r: string)
    requires Readable(fields, args)
    ensures |r| == 0 <==> |fields| == 0
    decreases |fields|
  {
    if fields == [] then ""
    else
      var head := fields[0].key + "=" + Render(args[fields[0].arg]);
      if |fields| == 1 then head else head + "&" + Pairs(fields[1..], args)
  }

  /** The query string an image endpoint hands to `_get`. */
  function Query(fields: seq<Field>, args: seq<Value>): (r: string)
    requires Readable(fields, args)
    ensures |r| == 1 <==> |fields| == 0
  {
    "?" + Pairs(fields, args)
  }

  /** The query of a one- or two-parameter endpoint that sends every
      parameter under its own name: `?p=<a>` and `?p=<a>&q=<b>`. */
  lemma SendAllQuery(p: string, q: string, a: Value, b: Value)
    ensures Query(SendAll([p]), [a]) == "?" + (p + "=" + Render(a))
    ensures Query(SendAll([p, q]), [a, b]) == "?" + ((p + "=" + Render(a)) + "&" + (q + "=" + Render(b)))
  {
    assert SendAll([p]) == [Field(p, 0)];
    assert SendAll([p, q]) == [Field(p, 0), Field(q, 1)];
    TwoPairs(Field(p, 0), Field(q, 1), [a, b]);
  }

  /** The pairs of two fields: the first, `&`, the second. */
  lemma TwoPairs(f: Field, g: Field, args: seq<Value>)
    requires f.arg < |args| && g.arg < |args|
    ensures Pairs([f, g], args) == (f.key + "=" + Render(args[f.arg])) + "&" + (g.key + "=" + Render(args[g.arg]))
  {
    assert [f, g][1..] == [g];
  }

  /** A request was issued: its header is the client's, its URL on the client's host. */
  predicate Authorized(c: Client, q: Request) {
    && q.headerName == c.headerName && q.headerValue == c.token
    && |c.baseUrl| <= |q.url| && q.url[..|c.baseUrl|] == c.baseUrl
  }

  /** A table endpoint called with all its parameters bound: the range check,
      then the production check, then the theme check, then the primitive
      with its own argument checks. */
  function Perform(c: Client, d: Descriptor, args: seq<Value>): (r: Result<Request, Error>)
    requires WellFormed(d) && |args| == |d.params|
    ensures r.Ok? ==> Authorized(c, r.value)
    ensures r.Ok? ==> (r.value.kind == Binary <==> d.target.Image?)
    ensures r.Ok? && d.availability.DevOnly? ==> c.dev
    ensures r.Ok? && d.gate.Range? ==> !BrInvalid(args[d.gate.arg])
    ensures r.Ok? && d.gate.Choice? ==> args[d.gate.arg].Str? && args[d.gate.arg].s in d.gate.allowed
    ensures r.Err? ==> !r.error.WrongArity?
    ensures d.gate.Range? && BrInvalid(args[d.gate.arg]) ==> r == Err(InvalidParam("Invalid " + d.gate.what))
    ensures d.availability.DevOnly? && !c.dev && !(d.gate.Range? && BrInvalid(args[d.gate.arg])) ==>
      r == Err(NotAvailable(d.availability.title + DisabledInProduction))
    ensures d.target.TextOf? && d.gate.Open? && (d.availability.DevOnly? ==> c.dev) ==>
      var text := args[d.target.textArg];
      var style := d.target.style;
      && (!text.Str? ==> r == Err(TypeMismatch(d.target.textMessage)))
      && (text.Str? && style.Styled? && !args[style.arg].Str? ==> r == Err(MissingAttribute("lower")))
      && (text.Str? && style.Styled? && args[style.arg].Str? && Lower(args[style.arg].s) !in style.allowed ==>
            r == Err(TypeMismatch(style.message)))
  {
    if d.gate.Range? && BrInvalid(args[d.gate.arg]) then
      Err(InvalidParam("Invalid " + d.gate.what))
    else if d.availability.DevOnly? && !c.dev then
      Err(NotAvailable(d.availability.title + DisabledInProduction))
    else if d.gate.Choice? && !(args[d.gate.arg].Str? && args[d.gate.arg].s in d.gate.allowed) then
      Err(TypeMismatch(d.gate.message))
    else
      match d.target
      case Image(devPath, fields) =>
        var path := if d.availability.Everywhere? && !c.dev then d.availability.prodPath else devPath;
        Ok(Get(c, PathOf(path), Query(fields, args)))
      case TextOf(route, textArg, textMessage, style) =>
        var text := args[textArg];
        if !text.Str? then Err(TypeMismatch(textMessage))
        else
          match style
          case Unstyled => Ok(TextGet(c, route, text.s, None))
          case Styled(arg, allowed, styleMessage) =>
            var st := args[arg];
            if !st.Str? then Err(MissingAttribute("lower"))
            else if Lower(st.s) !in allowed then Err(TypeMismatch(styleMessage))
            else Ok(TextGet(c, route, text.s, Some(Lower(st.s))))
  }

  /** An open image endpoint served everywhere always issues its request, on
      the production path in production and the development path otherwise. */
  lemma PerformEverywhere(c: Client, d: Descriptor, args: seq<Value>)
    requires WellFormed(d) && |args| == |d.params|
    requires d.availability.Everywhere? && d.gate.Open? && d.target.Image?
    ensures Perform(c, d, args) ==
      Ok(Get(c, PathOf(if c.dev then d.target.devPath else d.availability.prodPath), Query(d.target.fields, args)))
  {
  }

  /** `Perform` reads a descriptor's availability, check and target, never
      its name or its parameter names. */
  lemma PerformIgnoresNames(c: Client, d1: Descriptor, d2: Descriptor, args: seq<Value>)
    requires WellFormed(d1) && WellFormed(d2) && |args| == |d1.params| == |d2.params|
    requires d1.availability == d2.availability && d1.gate == d2.gate && d1.target == d2.target
    ensures Perform(c, d1, args) == Perform(c, d2, args)
  {
  }

  /** In development an image endpoint with a theme check issues its request
      exactly when the theme is one of the allowed strings, and otherwise
      raises the theme message. */
  lemma PerformChoice(c: Client, d: Descriptor, args: seq<Value>)
    requires WellFormed(d) && |args| == |d.params| && c.dev
    requires d.gate.Choice? && d.target.Image?
    ensures var theme := args[d.gate.arg];
      && (Perform(c, d, args).Ok? <==> theme.Str? && theme.s in d.gate.allowed)
      && (Perform(c, d, args).Err? ==> Perform(c, d, args) == Err(TypeMismatch(d.gate.message)))
  {
  }

  /** `welcome`: both quotes run first; a version other than gearz is refused
      in production and, in development, sends the raw usertag and no guild. */
  function BuildWelcome(c: Client, avatar: Value, isBot: Value, usertag: Value, guild: Value,
                        version: Value): (r: Result<Request, Error>)
    ensures r.Ok? ==> Authorized(c, r.value) && r.value.kind == Binary
    ensures r.Ok? <==> usertag.Str? && guild.Str? && (c.dev || version == Str(Gearz))
    ensures !usertag.Str? || !guild.Str? ==> r == Err(TypeMismatch(QuoteTypeMessage))
  {
    if !usertag.Str? || !guild.Str? then Err(TypeMismatch(QuoteTypeMessage))
    else if version != Str(Gearz) then
      if !c.dev then Err(NotAvailable("Anime" + DisabledInProduction))
      else Ok(Get(c, "/greetings/" + Render(version) + "_welcome",
                  "?bot=" + Render(isBot) + "&usertag=" + usertag.s + "&avatar=" + Render(avatar)))
    else
      Ok(Get(c, (if c.dev then "/greetings/" else "/") + Gearz + "_welcome",
             "?guild=" + Quote(guild.s) + "&bot=" + Render(isBot) + "&usertag=" + Quote(usertag.s)
             + "&avatar=" + Render(avatar)))
  }

  /** `goodbye`: the quote runs first; production serves only gearz, and
      every version sends the quoted usertag. */
  function BuildGoodbye(c: Client, avatar: Value, isBot: Value, usertag: Value, version: Value): (r: Result<Request, Error>)
    ensures r.Ok? ==> Authorized(c, r.value) && r.value.kind == Binary
    ensures r.Ok? <==> usertag.Str? && (c.dev || version == Str(Gearz))
    ensures !usertag.Str? ==> r == Err(TypeMismatch(QuoteTypeMessage))
  {
    if !usertag.Str? then Err(TypeMismatch(QuoteTypeMessage))
    else if !c.dev && version != Str(Gearz) then Err(NotAvailable("Anime" + DisabledInProduction))
    else
      Ok(Get(c, (if c.dev then "/greetings/" else "/") + Render(version) + "_goodbye",
             "?bot=" + Render(isBot) + "&usertag=" + Quote(usertag.s) + "&avatar=" + Render(avatar)))
  }

  /** The bot flag of `greeting`, sent as `str(bot).lower()`: as long as
      `str(bot)`, with no capital left. */
  function BotFlag(bot: Value): (r: string)
    ensures |r| == |Render(bot)|
    ensures forall k :: 0 <= k < |r| ==> !('A' <= r[k] <= 'Z')
  {
    Lower(Render(bot))
  }

  /** The query of `greeting`. */
  function GreetingQuery(kind: Value, version: Value, bot: Value, avatar: Value, username: Value,
                         discriminator: Value, guildName: Value, memberCount: Value, message: Value): string
  {
    "?version=" + Render(version) + "&type=" + Render(kind) + "&bot=" + BotFlag(bot)
    + "&avatar=" + Render(avatar) + "&username=" + Render(username)
    + "&discriminator=" + Render(discriminator) + "&guildName=" + Render(guildName)
    + "&memberCount=" + Render(memberCount) + "&message=" + Render(message)
  }

  /** A table endpoint called with positional arguments. */
  function CallEndpoint(c: Client, e: Endpoint, args: seq<Value>): (r: Result<Request, Error>)
    ensures r.Ok? ==> Authorized(c, r.value)
    ensures r == Err(WrongArity(Describe(e).name)) <==> !ArityFits(Describe(e), |args|)
  {
    var d := Describe(e);
    match Bind(d, args)
    case Err(x) => Err(x)
    case Ok(full) => Perform(c, d, full)
  }

  /** The request a call issues, or the exception it raises first. Whatever
      is issued carries the client's credentials to the client's host. */
  function Build(c: Client, call: Call): (r: Result<Request, Error>)
    ensures r.Ok? ==> Authorized(c, r.value)
  {
    match call
    case Invoke(e, args) => CallEndpoint(c, e, args)
    case Welcome(avatar, isBot, usertag, guild, version) =>
      BuildWelcome(c, avatar, isBot, usertag, guild, if version.Some? then version.value else Str(Gearz))
    case Goodbye(avatar, isBot, usertag, version) =>
      BuildGoodbye(c, avatar, isBot, usertag, if version.Some? then version.value else Str(Gearz))
    case Greeting(kind, variant, bot, avatar, username, discriminator, guildName, memberCount, message) =>
      Ok(Get(c, "/greetings/unified",
             GreetingQuery(kind, variant, bot, avatar, username, discriminator, guildName, memberCount,
                           if message.Some? then message.value else Str(""))))
  }

  /** A table call binds its arguments and then performs the endpoint: it
      fails with `WrongArity` exactly when the count does not fit. */
  lemma InvokeBinds(c: Client, e: Endpoint, args: seq<Value>)
    ensures var d := Describe(e);
      Build(c, Invoke(e, args)) ==
        if ArityFits(d, |args|) then Perform(c, d, Bind(d, args).value) else Err(WrongArity(d.name))
  {
  }
}

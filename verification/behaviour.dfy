/** What the client promises its callers. Properties of a whole call are
    stated over `Dispatch.Build`; properties of one group of endpoints over
    `Dispatch.Perform` and the group's table, which `Dispatch.InvokeBinds`
    connects to `Build`. */
module Behaviour {
  import opened Results
  import opened Errors
  import opened PyValues
  import opened Validation
  import opened Quoting
  import opened Config
  import opened Rewrite
  import opened Requests
  import opened Endpoints
  import opened Dispatch
  import opened QueryText

  /** A client as constructed authenticates with the header of its
      environment and talks to that environment's host. */
  lemma EnvironmentRespected(c: Client, call: Call)
    requires Constructed(c) && Build(c, call).Ok?
    ensures Build(c, call).value.headerName == (if c.dev then "Authorization" else "token")
    ensures Build(c, call).value.url[..|c.baseUrl|] == (if c.dev then DevBaseUrl else ProdBaseUrl)
  {
    var built := NewClient(c.token, c.dev);
    assert c == built;
    assert Authorized(c, Build(c, call).value);
  }

  /** In production every development-only endpoint called with a valid
      number of arguments is refused with its own `NotAvailable`, unless its
      range check fails first. */
  lemma ProductionRefusesDevOnly(c: Client, e: Endpoint, args: seq<Value>)
    requires !c.dev && Describe(e).availability.DevOnly? && ArityFits(Describe(e), |args|)
    ensures var d := Describe(e);
      var full := Bind(d, args).value;
      Build(c, Invoke(e, args)) ==
        if d.gate.Range? && BrInvalid(full[d.gate.arg]) then Err(InvalidParam("Invalid " + d.gate.what))
        else Err(NotAvailable(d.availability.title + DisabledInProduction))
  {
    var d := Describe(e);
    var full := Bind(d, args).value;
    assert Build(c, Invoke(e, args)) == Perform(c, d, full);
  }

  /** Once its one argument binds, `color` behaves as `colour` in every
      respect. */
  lemma ColorIsColour(c: Client, args: seq<Value>)
    requires ArityFits(Describe(Generator(Colour)), |args|)
    ensures Build(c, Invoke(Generator(Color), args)) == Build(c, Invoke(Generator(Colour), args))
  {
    var d1 := DescribeGenerator(Color);
    var d2 := DescribeGenerator(Colour);
    assert d1.params == ["color"] && d2.params == ["colour"] && d1.defaults == d2.defaults == [];
    assert d1.availability == d2.availability && d1.gate == d2.gate && d1.target == d2.target;
    PerformIgnoresNames(c, d1, d2, args);
    BindAll(d1, args);
    BindAll(d2, args);
    InvokeBinds(c, Generator(Color), args);
    InvokeBinds(c, Generator(Colour), args);
  }

  /** A `color` call with the wrong number of arguments fails in `color`
      itself, before `colour` is reached. */
  lemma ColorOwnArity(c: Client, args: seq<Value>)
    requires !ArityFits(Describe(Generator(Color)), |args|)
    ensures Build(c, Invoke(Generator(Color), args)) == Err(WrongArity("color"))
  {
  }

  /** The generators served in both environments: any full argument list
      succeeds, at `/<name>` in production and `/generators/<name>` in
      development, with every parameter sent under its own name. */
  lemma ClassicServedEverywhere(c: Client, g: ClassicGenerator, args: seq<Value>)
    requires |args| == |DescribeClassic(g).params|
    ensures var d := DescribeClassic(g);
      Perform(c, d, args) ==
        Ok(Get(c, (if c.dev then "/generators/" else "/") + d.name, Query(SendAll(d.params), args)))
  {
    var d := DescribeClassic(g);
    PerformEverywhere(c, d, args);
    PathOfShort(d.name, "");
    PathOfShort("generators", d.name);
    assert d.target.devPath == ["generators", d.name];
    assert "/" + "generators" + "/" + d.name == "/generators/" + d.name;
  }

  /** blame sends its one parameter as `?name=<name>`. */
  lemma BlameQuery(g: ClassicGenerator, name: string)
    requires g == Blame
    ensures DescribeClassic(g).name == "blame"
    ensures Query(SendAll(DescribeClassic(g).params), [Str(name)]) == "?name=" + name
  {
    var d := DescribeClassic(g);
    assert d.params == ["name"];
    assert SendAll(d.params) == [Field("name", 0)];
    assert Pairs([Field("name", 0)], [Str(name)]) == "name" + "=" + name;
    assert "?" + ("name" + "=" + name) == "?name=" + name;
  }

  /** The blame example: a production client asked to blame a name without
      `w` requests exactly `https://api.anidiots.guide/blame?name=<name>`
      with its `token` header. */
  lemma BlameExample(c: Client, g: ClassicGenerator, name: string)
    requires Constructed(c) && !c.dev && g == Blame
    requires forall k :: 0 <= k < |name| ==> name[k] != 'w'
    ensures Perform(c, DescribeClassic(g), [Str(name)]) ==
      Ok(Request(ProdBaseUrl + "/blame" + "?name=" + name, "token", c.token, [], Binary))
  {
    ClassicServedEverywhere(c, g, [Str(name)]);
    BlameQuery(g, name);
    var q := "?name=" + name;
    assert Perform(c, DescribeClassic(g), [Str(name)]) == Ok(Get(c, "/blame", q)) by {
      assert "/" + "blame" == "/blame";
    }
    assert forall k :: 0 <= k < |q| ==> q[k] != 'w';
    GetPlainQueryVerbatim(c, "/blame", q);
    assert c.baseUrl == ProdBaseUrl && c.headerName == "token" by {
      assert c == NewClient(c.token, false);
    }
    var r := Get(c, "/blame", q);
    assert r.url == ProdBaseUrl + "/blame" + "?name=" + name;
    assert r == Request(r.url, r.headerName, r.headerValue, r.params, r.kind);
  }

  /** The intensity of brightness, darkness, invert_threshold and threshold is
      checked before the environment: an invalid one is reported in both
      environments, and in development a call succeeds exactly when the
      intensity is an integer in 0..255 (or a bool). */
  lemma RangeCheckedFirst(c: Client, f: PixelEffect, avatar: Value, level: Value)
    requires f in {Brightness, Darkness, InvertThreshold, Threshold}
    ensures var what := if f == Brightness then "brightness" else if f == Darkness then "darkness" else "threshold";
      BrInvalid(level) ==> Perform(c, DescribeEffect(f), [avatar, level]) == Err(InvalidParam("Invalid " + what))
    ensures c.dev ==>
      (Perform(c, DescribeEffect(f), [avatar, level]).Ok? <==> (level.Int? && 0 <= level.i <= 255) || level.Bool?)
  {
    var d := DescribeEffect(f);
    assert d.gate.Range? && d.gate.arg == 1;
    assert d.gate.what == if f == Brightness then "brightness" else if f == Darkness then "darkness" else "threshold";
    BrValidExactly(level);
  }

  /** In development a text endpoint refuses a text that is not a `str`
      before it looks at the style. */
  lemma TextTypeChecked(c: Client, t: TextStyle, args: seq<Value>)
    requires c.dev && |args| == |DescribeText(t).params| && !args[0].Str?
    ensures Perform(c, DescribeText(t), args) ==
      Err(TypeMismatch(if t == Owoify then "Text must be string" else "Text must be a string"))
  {
  }

  /** tiny and cursive accept a style exactly when its lower-case form is one
      of theirs, send that lower-case form, and fail on `.lower()` when the
      style is not a string. */
  lemma StyleAcceptedExactly(c: Client, t: TextStyle, text: string, style: Value)
    requires c.dev && t in {Tiny, Cursive}
    ensures var r := Perform(c, DescribeText(t), [Str(text), style]);
      var allowed := if t == Tiny then ["tiny", "superscript", "subscript"] else ["bold", "normal"];
      var message := if t == Tiny then "Style must be one of tiny, superscript, subscript"
                     else "Style must be one of bold or normal";
      && (!style.Str? ==> r == Err(MissingAttribute("lower")))
      && (style.Str? && Lower(style.s) !in allowed ==> r == Err(TypeMismatch(message)))
      && (r.Ok? <==> style.Str? && Lower(style.s) in allowed)
      && (r.Ok? ==> r.value.params == [("text", text), ("style", Lower(style.s))])
  {
    var d := DescribeText(t);
    assert d.target.style.Styled? && d.target.style.arg == 1;
    assert d.target.style.allowed == if t == Tiny then ["tiny", "superscript", "subscript"] else ["bold", "normal"];
    assert d.target.style.message == if t == Tiny then "Style must be one of tiny, superscript, subscript"
                                     else "Style must be one of bold or normal";
  }

  /** The style of tiny and cursive is case-insensitive: a style and its
      lower-case form lead to the same outcome. */
  lemma StyleCaseInsensitive(c: Client, t: TextStyle, text: Value, style: string)
    requires t in {Tiny, Cursive}
    ensures Perform(c, DescribeText(t), [text, Str(style)]) == Perform(c, DescribeText(t), [text, Str(Lower(style))])
  {
    var d := DescribeText(t);
    assert d.target.style.Styled? && d.target.style.arg == 1;
    LowerIdempotent(style);
  }

  /** osu's theme is matched exactly, without lowering: in development a call
      succeeds exactly when the theme is one of the three strings, `Dark` is
      refused with the theme message, and an omitted theme is `dark`. */
  lemma OsuThemeExact(c: Client, g: DevGenerator, user: Value, theme: Value)
    requires c.dev && g == Osu
    ensures Perform(c, DescribeGenerator(g), [user, theme]).Ok? <==>
      theme.Str? && theme.s in ["dark", "light", "darker"]
    ensures theme == Str("Dark") ==>
      Perform(c, DescribeGenerator(g), [user, theme]) ==
        Err(TypeMismatch("Invalid theme, theme can only be one of dark, light, darker"))
    ensures Bind(DescribeGenerator(g), [user]) == Ok([user, Str("dark")])
  {
    var d := DescribeGenerator(g);
    var allowed := ["dark", "light", "darker"];
    assert d.gate == Choice(1, allowed, "Invalid theme, theme can only be one of dark, light, darker");
    assert d.defaults == [Str("dark")] && d.target.Image?;
    PerformChoice(c, d, [user, theme]);
    assert [user] + d.defaults[0..] == [user, Str("dark")];
    if theme == Str("Dark") {
      assert "Dark" !in allowed by {
        assert "Dark"[0] != "dark"[0] && "Dark"[0] != "light"[0] && "Dark"[0] != "darker"[0];
      }
    }
  }

  /** An omitted version is gearz for both deprecated greetings. */
  lemma GreetingsDefaultGearz(c: Client, avatar: Value, isBot: Value, usertag: Value, guild: Value)
    ensures Build(c, Welcome(avatar, isBot, usertag, guild, None)) == BuildWelcome(c, avatar, isBot, usertag, guild, Str(Gearz))
    ensures Build(c, Goodbye(avatar, isBot, usertag, None)) == BuildGoodbye(c, avatar, isBot, usertag, Str(Gearz))
  {
  }

  /** Both deprecated greetings refuse every version but gearz in production
      with the shared `Anime` message, after quoting succeeded. */
  lemma GreetingsRefusedInProduction(c: Client, avatar: Value, isBot: Value, usertag: string, guild: string, version: Value)
    requires !c.dev && version != Str(Gearz)
    ensures BuildWelcome(c, avatar, isBot, Str(usertag), Str(guild), version) ==
      Err(NotAvailable("Anime" + DisabledInProduction))
    ensures BuildGoodbye(c, avatar, isBot, Str(usertag), version) ==
      Err(NotAvailable("Anime" + DisabledInProduction))
  {
  }

  /** A welcome in a version other than gearz does not send the guild:
      any two guilds lead to the same outcome. */
  lemma AnimeWelcomeIgnoresGuild(c: Client, avatar: Value, isBot: Value, usertag: string,
                                 guild1: string, guild2: string, version: Value)
    requires version != Str(Gearz)
    ensures BuildWelcome(c, avatar, isBot, Str(usertag), Str(guild1), version)
         == BuildWelcome(c, avatar, isBot, Str(usertag), Str(guild2), version)
  {
  }

  /** `welcome` in gearz, in either environment, sends the guild and the
      usertag quoted. */
  lemma GearzWelcomeRequest(c: Client, avatar: Value, isBot: Value, usertag: string, guild: string)
    ensures BuildWelcome(c, avatar, isBot, Str(usertag), Str(guild), Str(Gearz)) ==
      Ok(Get(c, (if c.dev then "/greetings/" else "/") + Gearz + "_welcome",
             "?guild=" + Quote(guild) + "&bot=" + Render(isBot) + "&usertag=" + Quote(usertag)
             + "&avatar=" + Render(avatar)))
  {
  }

  /** In gearz neither the usertag nor the guild can add a parameter to
      `welcome`: whatever they hold, the URL has the same number of `&`. */
  lemma GearzWelcomeParametersFixed(c: Client, avatar: Value, isBot: Value,
                                    usertag1: string, guild1: string, usertag2: string, guild2: string)
    ensures var r1 := BuildWelcome(c, avatar, isBot, Str(usertag1), Str(guild1), Str(Gearz));
      var r2 := BuildWelcome(c, avatar, isBot, Str(usertag2), Str(guild2), Str(Gearz));
      r1.Ok? && r2.Ok? && Separators(r1.value.url) == Separators(r2.value.url)
  {
    var path := (if c.dev then "/greetings/" else "/") + Gearz + "_welcome";
    GearzWelcomeRequest(c, avatar, isBot, usertag1, guild1);
    GearzWelcomeRequest(c, avatar, isBot, usertag2, guild2);
    GetSeparators(c, path, "?guild=" + Quote(guild1) + "&bot=" + Render(isBot) + "&usertag=" + Quote(usertag1)
                            + "&avatar=" + Render(avatar));
    GetSeparators(c, path, "?guild=" + Quote(guild2) + "&bot=" + Render(isBot) + "&usertag=" + Quote(usertag2)
                            + "&avatar=" + Render(avatar));
    FourPairs("?guild=", Quote(guild1), "&bot=", Render(isBot), "&usertag=", Quote(usertag1), "&avatar=", Render(avatar));
    FourPairs("?guild=", Quote(guild2), "&bot=", Render(isBot), "&usertag=", Quote(usertag2), "&avatar=", Render(avatar));
    QuotedHasNoSeparator(usertag1);
    QuotedHasNoSeparator(usertag2);
    QuotedHasNoSeparator(guild1);
    QuotedHasNoSeparator(guild2);
  }

  /** `welcome` in any other version, in development, sends the usertag raw
      and no guild. */
  lemma AnimeWelcomeRequest(c: Client, avatar: Value, isBot: Value, usertag: string, guild: string, version: Value)
    requires c.dev && version != Str(Gearz)
    ensures BuildWelcome(c, avatar, isBot, Str(usertag), Str(guild), version) ==
      Ok(Get(c, "/greetings/" + Render(version) + "_welcome",
             "?bot=" + Render(isBot) + "&usertag=" + usertag + "&avatar=" + Render(avatar)))
  {
  }

  /** The raw usertag of a non-gearz `welcome` can add parameters: every
      `&` it holds is one more `&` in the URL. */
  lemma AnimeUsertagAddsParameters(c: Client, avatar: Value, isBot: Value,
                                   usertag1: string, usertag2: string, guild: string, version: Value)
    requires c.dev && version != Str(Gearz)
    ensures var r1 := BuildWelcome(c, avatar, isBot, Str(usertag1), Str(guild), version);
      var r2 := BuildWelcome(c, avatar, isBot, Str(usertag2), Str(guild), version);
      r1.Ok? && r2.Ok? &&
      Separators(r1.value.url) + Separators(usertag2) == Separators(r2.value.url) + Separators(usertag1)
  {
    var path := "/greetings/" + Render(version) + "_welcome";
    AnimeWelcomeRequest(c, avatar, isBot, usertag1, guild, version);
    AnimeWelcomeRequest(c, avatar, isBot, usertag2, guild, version);
    GetSeparators(c, path, "?bot=" + Render(isBot) + "&usertag=" + usertag1 + "&avatar=" + Render(avatar));
    GetSeparators(c, path, "?bot=" + Render(isBot) + "&usertag=" + usertag2 + "&avatar=" + Render(avatar));
    ThreePairs("?bot=", Render(isBot), "&usertag=", usertag1, "&avatar=", Render(avatar));
    ThreePairs("?bot=", Render(isBot), "&usertag=", usertag2, "&avatar=", Render(avatar));
  }

  /** `goodbye` sends the usertag quoted in every version it serves. */
  lemma GoodbyeRequest(c: Client, avatar: Value, isBot: Value, usertag: string, version: Value)
    requires c.dev || version == Str(Gearz)
    ensures BuildGoodbye(c, avatar, isBot, Str(usertag), version) ==
      Ok(Get(c, (if c.dev then "/greetings/" else "/") + Render(version) + "_goodbye",
             "?bot=" + Render(isBot) + "&usertag=" + Quote(usertag) + "&avatar=" + Render(avatar)))
  {
  }

  /** The usertag never adds a parameter to `goodbye`: whatever it holds,
      the URL has the same number of `&`. */
  lemma GoodbyeParametersFixed(c: Client, avatar: Value, isBot: Value, usertag1: string, usertag2: string,
                               version: Value)
    requires c.dev || version == Str(Gearz)
    ensures var r1 := BuildGoodbye(c, avatar, isBot, Str(usertag1), version);
      var r2 := BuildGoodbye(c, avatar, isBot, Str(usertag2), version);
      r1.Ok? && r2.Ok? && Separators(r1.value.url) == Separators(r2.value.url)
  {
    var path := (if c.dev then "/greetings/" else "/") + Render(version) + "_goodbye";
    GoodbyeRequest(c, avatar, isBot, usertag1, version);
    GoodbyeRequest(c, avatar, isBot, usertag2, version);
    GetSeparators(c, path, "?bot=" + Render(isBot) + "&usertag=" + Quote(usertag1) + "&avatar=" + Render(avatar));
    GetSeparators(c, path, "?bot=" + Render(isBot) + "&usertag=" + Quote(usertag2) + "&avatar=" + Render(avatar));
    ThreePairs("?bot=", Render(isBot), "&usertag=", Quote(usertag1), "&avatar=", Render(avatar));
    ThreePairs("?bot=", Render(isBot), "&usertag=", Quote(usertag2), "&avatar=", Render(avatar));
    QuotedHasNoSeparator(usertag1);
    QuotedHasNoSeparator(usertag2);
  }

  /** A query whose keys and values hold no `&` has exactly one parameter
      per field: its `&` are the separators `Pairs` puts between fields. */
  lemma {:induction false} QueryParameters(fields: seq<Field>, args: seq<Value>)
    requires Readable(fields, args) && |fields| > 0
    requires forall k :: 0 <= k < |fields| ==>
      Separators(fields[k].key) == 0 && Separators(Render(args[fields[k].arg])) == 0
    ensures Separators(Query(fields, args)) == |fields| - 1
  {
    PairsParameters(fields, args);
    SeparatorsAppend("?", Pairs(fields, args));
    NoSeparators("?");
  }

  /** See `QueryParameters`. */
  lemma {:induction false} PairsParameters(fields: seq<Field>, args: seq<Value>)
    requires Readable(fields, args) && |fields| > 0
    requires forall k :: 0 <= k < |fields| ==>
      Separators(fields[k].key) == 0 && Separators(Render(args[fields[k].arg])) == 0
    ensures Separators(Pairs(fields, args)) == |fields| - 1
    decreases |fields|
  {
    var key := fields[0].key;
    var value := Render(args[fields[0].arg]);
    var head := key + "=" + value;
    NoSeparators("=");
    SeparatorsAppend(key, "=");
    SeparatorsAppend(key + "=", value);
    if |fields| > 1 {
      var rest := fields[1..];
      assert forall k :: 0 <= k < |rest| ==> rest[k] == fields[k + 1];
      PairsParameters(rest, args);
      NoSeparators("&");
      OneSeparator("&");
      SeparatorsAppend(head, "&");
      SeparatorsAppend(head + "&", Pairs(rest, args));
    }
  }

  /** `greeting` is served at `/greetings/unified` in both environments;
      a boolean bot flag goes as `true` or `false`, and an omitted message
      as the empty string. */
  lemma GreetingRequest(c: Client, kind: Value, variant: Value, b: bool, avatar: Value, username: Value,
                        discriminator: Value, guildName: Value, memberCount: Value, message: Option<Value>)
    ensures Build(c, Greeting(kind, variant, Bool(b), avatar, username, discriminator, guildName, memberCount, message)) ==
      Ok(Get(c, "/greetings/unified",
             "?version=" + Render(variant) + "&type=" + Render(kind) + "&bot=" + (if b then "true" else "false")
             + "&avatar=" + Render(avatar) + "&username=" + Render(username)
             + "&discriminator=" + Render(discriminator) + "&guildName=" + Render(guildName)
             + "&memberCount=" + Render(memberCount)
             + "&message=" + (if message.Some? then Render(message.value) else "")))
  {
    GreetingBotLowercase(b, "");
  }

  /** Apart from the host and header, `greeting` sends the same URL in
      both environments, starting with the path `/greetings/unified`. */
  lemma GreetingSameEverywhere(c1: Client, c2: Client, call: Call)
    requires call.Greeting?
    ensures Build(c1, call).Ok? && Build(c2, call).Ok?
    ensures var u1 := Build(c1, call).value.url;
      var u2 := Build(c2, call).value.url;
      && |c1.baseUrl| <= |u1| && |c2.baseUrl| <= |u2|
      && u1[|c1.baseUrl|..] == u2[|c2.baseUrl|..]
      && |c1.baseUrl + "/greetings/unified"| <= |u1|
      && u1[..|c1.baseUrl + "/greetings/unified"|] == c1.baseUrl + "/greetings/unified"
  {
    var q := GreetingQuery(call.kind, call.variant, call.bot, call.avatar, call.username, call.discriminator,
                           call.guildName, call.memberCount,
                           if call.message.Some? then call.message.value else Str(""));
    assert Build(c1, call) == Ok(Get(c1, "/greetings/unified", q));
    assert Build(c2, call) == Ok(Get(c2, "/greetings/unified", q));
    GetPastHost(c1, c2, "/greetings/unified", q);
  }

  /** The path of `welcome`: gearz at `/gearz_welcome` in production and
      `/greetings/gearz_welcome` in development, any other development
      version at `/greetings/<version>_welcome`. */
  lemma WelcomePath(c: Client, avatar: Value, isBot: Value, usertag: string, guild: string, version: Value)
    ensures var r := BuildWelcome(c, avatar, isBot, Str(usertag), Str(guild), version);
      var path := (if c.dev then "/greetings/" else "/") + Render(version) + "_welcome";
      r.Ok? ==> |c.baseUrl + path| <= |r.value.url| && r.value.url[..|c.baseUrl + path|] == c.baseUrl + path
  {
    if version == Str(Gearz) {
      assert Render(version) == Gearz;
    }
  }

  /** The path of `goodbye`: `/<version>_goodbye` in production, which only
      gearz reaches, and `/greetings/<version>_goodbye` in development. */
  lemma GoodbyePath(c: Client, avatar: Value, isBot: Value, usertag: string, version: Value)
    ensures var r := BuildGoodbye(c, avatar, isBot, Str(usertag), version);
      var path := (if c.dev then "/greetings/" else "/") + Render(version) + "_goodbye";
      r.Ok? ==> |c.baseUrl + path| <= |r.value.url| && r.value.url[..|c.baseUrl + path|] == c.baseUrl + path
  {
  }

  /** `greeting` sends its bot flag lower-cased: `True` as `true`, and any
      string as its lower-case form, so a string and its lower-case form
      send the same flag. */
  lemma GreetingBotLowercase(b: bool, s: string)
    ensures BotFlag(Bool(b)) == (if b then "true" else "false")
    ensures BotFlag(Str(s)) == Lower(s) && BotFlag(Str(s)) == BotFlag(Str(Lower(s)))
  {
    LowerIdempotent(s);
    var t := if b then "True" else "False";
    var l := if b then "true" else "false";
    assert Render(Bool(b)) == t;
    forall k | 0 <= k < |l|
      ensures Lower(t)[k] == l[k]
    {
      assert Lower(t)[k] == LowerChar(t[k]);
    }
  }
}

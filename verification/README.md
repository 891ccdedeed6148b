# idioticapi request construction, in Dafny

`idioticapi` is an asynchronous Python client for the anidiots.guide image
and text API. Each endpoint method of its `Client` validates its arguments,
refuses development-only endpoints in production, and builds one HTTP GET
through one of two primitives:
- `_get` returns the image bytes;
- `_text` returns the text of a text-transform endpoint.

This project models everything the client decides before and after the
network round trip. Calls are pure functions:
- `Dispatch.Build(client, call)` gives the request issued, or the exception
  raised first.
- `Responses.Interpret(kind, response)` gives what a primitive makes of the
  server's answer.
- `Responses.Run` joins the two with the network as a function parameter.

The endpoint methods that follow the common pattern form a table of 63
descriptors in `Endpoints`; `welcome`, `goodbye` and `greeting` are three
further calls of their own. Each descriptor holds:
- the parameter names and defaults;
- production availability;
- the argument check: a range check, a theme choice, or none;
- the target: an image path with its query fields, or a text route with its
  text and style checks.

`Dispatch.Perform` is the one generic function that runs a descriptor, with
the checks in the order the source performs them. `welcome`, `goodbye` and
`greeting` have their own gating, so they are separate call shapes.

Python values are modelled as `PyValues.Value`: int, bool, str or `None`.
`str.format` is `Render`, and `str.lower` is `Lower`. `urllib.parse.quote` is
modelled concretely in `Quoting`: the string is UTF-8 encoded, and every byte
outside the unreserved set and `/` becomes `%XX`. Exceptions are
`Errors.Error` values:
- `NotAvailable` and `InvalidParam` are the client's own exception classes.
- `TypeMismatch` is a `TypeError` with its message.
- `WrongArity` is Python's `TypeError` for a bad argument count.
- `MissingAttribute` is the `AttributeError` of `.lower()` on a non-string.
- `HttpStatus` is the client's non-200 `Exception`.
- `MissingKey` is a `KeyError` on the response body.
- `ByteOutOfRange` is the `ValueError` of `bytes()`.

Two details of the code that the model keeps:
- `_get` rewrites `webp` to `png` in the query only, never in the host or
  the path.
- Of the captioned generators, only `virtual` drops its caption and sends
  just the avatar to `/generators/vr`; `kirby` and `changemymind` send it as
  `text`.

A request's `url` is the string handed to the HTTP library, which parses it
again before sending: a raw `#` there starts a fragment and a space is
encoded. `QueryText` counts a query's parameters by its `&` separators, the
measure used to state which values can add a parameter.

## Model

| member | source | states |
|---|---|---|
| Validation.BrInvalid | idioticapi/Client.py:5-12 | `br_invalid`: a string or `None` is always invalid, because the comparison raises and the `except` branch answers invalid; a bool never is, since it compares as 0 or 1. The full extent is stated by `BrValidExactly`. |
| Validation.BrValidExactly | idioticapi/Client.py:5-12 | A value passes `br_invalid` exactly when it is an int in 0..255 or a bool, since bools compare as 0 and 1. A string or `None` makes the comparison raise, and the `except` branch turns that into invalid. |
| Config.NewClient | idioticapi/Client.py:43-49 | The header key is `Authorization` exactly in development and `token` exactly in production. The host is the dev host exactly in development and the api host exactly in production. Both are fixed at construction. |
| Config.HeaderAndHostAgree | idioticapi/Client.py:26-49 | Header key and host always name the same environment. An omitted `dev` means production. |
| Rewrite.ReplaceAll | idioticapi/Client.py:68 | `str.replace` scans left to right, replacing each occurrence and resuming after it. A replacement as long as its pattern keeps the string's length. |
| Rewrite.WebpToPng | idioticapi/Client.py:68 | `query.replace('webp', 'png')` never makes the query longer. |
| Rewrite.NoOccurrenceUnchanged | idioticapi/Client.py:68 | `str.replace` leaves a string without the pattern unchanged. |
| Rewrite.ReplaceNeverGrows | idioticapi/Client.py:68 | Replacing a pattern by a shorter one never lengthens the string. |
| Rewrite.OccurrenceShrinks | idioticapi/Client.py:68 | If the pattern occurs, replacing it by a shorter one strictly shortens the string. |
| Rewrite.SkipPlainPrefix | idioticapi/Client.py:68 | The left-to-right replacement copies through unchanged any prefix that lacks the pattern's first character. |
| Rewrite.RewriteFixesExactly | idioticapi/Client.py:68 | The `webp`→`png` rewrite leaves a query unchanged exactly when `webp` does not occur in it, and never makes it longer. |
| Rewrite.RewriteNotIdempotent | idioticapi/Client.py:68 | The rewrite is not idempotent: `webwebp` becomes `webpng`, which still holds `webp` and changes again on a second pass. |
| Rewrite.RewriteWebpLink | idioticapi/Client.py:68 | A query ending in a `.webp` link, with no `w` before it, is sent with the link ending in `png`. |
| Requests.Get | idioticapi/Client.py:61-68 | The `_get` URL is the host and endpoint followed by the rewritten query. The request carries the client's header and token and no extra parameters, and is read as bytes. |
| Requests.GetRewritesOnlyQuery | idioticapi/Client.py:68 | The URL equals host + endpoint + query exactly when the query holds no `webp`. It is never longer than that. |
| Requests.GetPlainQueryVerbatim | idioticapi/Client.py:68 | A query with no `w` reaches the URL verbatim after host and endpoint. |
| Requests.GetPastHost | idioticapi/Client.py:68 | Past the host, `_get` builds the same URL for every client: the endpoint, then the rewritten query. |
| Requests.TextGet | idioticapi/Client.py:74-78 | `_text` requests `/text/<endpoint>` on the client's host. The first parameter is the text. A style parameter follows exactly when the style is given and non-empty, matching `if style:`. |
| Quoting.Quote | idioticapi/Client.py:655-656 | `urllib.parse.quote` emits only unreserved characters, `/` and `%` escapes, and never shortens its input. |
| Quoting.QuoteFixesExactly | idioticapi/Client.py:655-656 | Quoting leaves a string unchanged exactly when every character is safe. Each unsafe character adds at least two characters. |
| Quoting.QuotedCannotSplitQuery | idioticapi/Client.py:662 | A quoted usertag or guild holds no `&`, `=`, `?`, `#`, `+` or space, so it cannot break the query it is pasted into. |
| Quoting.QuoteUserTag | idioticapi/Client.py:655 | Example: `a#1` is quoted as `a%231`. |
| PyValues.Render | idioticapi/Client.py:96 | `str.format` of one argument is empty exactly when the argument is the empty string: an int, a bool and `None` always write something. |
| PyValues.NatToDecimal | idioticapi/Client.py:96 | `str()` of a natural is a non-empty string of digits, and it begins with `0` only for zero. |
| PyValues.DecimalRoundTrip | idioticapi/Client.py:96 | Reading back the decimal rendering of a natural gives the same number. |
| PyValues.RenderIntCanonical | idioticapi/Client.py:96 | An int argument is formatted as an optional `-` and digits with no leading zero, and reads back as the same integer. |
| PyValues.Lower | idioticapi/Client.py:758-759 | `.lower()` keeps the length and lowers each character on its own. |
| PyValues.LowerCharSettles | idioticapi/Client.py:758 | A lowered character is not a capital, and lowering it again keeps it. |
| PyValues.LowerIdempotent | idioticapi/Client.py:758-759 | A lowered string holds no capitals, and lowering it again changes nothing. |
| Endpoints.PathOf | idioticapi/Client.py:96 | Joining path segments gives a path that starts with `/`. |
| Endpoints.PathOfShort | idioticapi/Client.py:96 | One segment gives `/a`, and two give `/a/b`. |
| Endpoints.DescribeClassic | idioticapi/Client.py:85-96 | The 17 generators served in both environments take at least one parameter and have no defaults. Each is served at `/<name>` in production and `/generators/<name>` in development, with every parameter sent under its own name. |
| Endpoints.DescribeFilter | idioticapi/Client.py:272-285 | The avatar filters are development-only, with no argument check. Each takes `avatar` alone, sends it as `?avatar=`, and lives under `/generators/`. |
| Endpoints.DescribeCaptioned | idioticapi/Client.py:846-885 | The captioned generators are development-only, take `avatar` and `text`, live under `/generators/`, and have no argument check. |
| Endpoints.DescribeGenerator | idioticapi/Client.py:683-731 | The remaining generators are development-only image endpoints under `/generators/`, and none of them has a range check. |
| Endpoints.DescribeOverlay | idioticapi/Client.py:435-478 | The overlays are development-only image endpoints under `/overlays/` with no argument check. |
| Endpoints.DescribeEffect | idioticapi/Client.py:480-625 | The effects are development-only image endpoints under `/effects/`. Exactly brightness, darkness, invert_threshold and threshold range-check their second argument, which they also send. |
| Endpoints.DescribeText | idioticapi/Client.py:733-779 | The text endpoints are development-only and served by `_text` with the text as first argument. Exactly `tiny` and `cursive` check a style. |
| Endpoints.Describe | idioticapi/Client.py:85-925 | Every table entry is well formed. Exactly the classic generators are served in production, each with its development path nesting `/<name>` under `/generators`. Every range-checked entry is a development-only effect under `/effects/`. |
| Dispatch.Bind | idioticapi/Client.py:897 | Positional binding succeeds exactly when the count covers every parameter without a default and exceeds none. The given arguments come first, and omitted trailing ones take their defaults. Otherwise it raises the arity `TypeError`. |
| Dispatch.BindAll | idioticapi/Client.py:897 | A call that gives every parameter binds exactly its own arguments. |
| Dispatch.Pairs | idioticapi/Client.py:299 | The `key={}&key={}` part of a query, each field filled with `str.format` of its argument, is empty exactly when there are no fields. |
| Dispatch.Query | idioticapi/Client.py:299 | The query an image endpoint hands to `_get` is `?` alone exactly when it has no fields. |
| Dispatch.SendAllQuery | idioticapi/Client.py:299 | An endpoint sending its parameters under their own names sends `?p=<a>` for one parameter and `?p=<a>&q=<b>` for two. |
| Dispatch.Perform | idioticapi/Client.py:492-496 | Checks run in source order: range, then production, then theme, then the text and style checks. An invalid intensity raises `InvalidParam` in either environment. A valid development-only call in production raises `NotAvailable` with its title. Past those, a non-string text raises the endpoint's text `TypeError`, a non-string style the `.lower()` `AttributeError`, and a string style whose lower-case form is not allowed the style `TypeError`. Any issued request carries the client's credentials to its host, is binary exactly for image targets, and implies every check passed. |
| Dispatch.PerformIgnoresNames | idioticapi/Client.py:729-731 | What a table call does depends on the entry's availability, check and target, never on its method or parameter names. |
| Dispatch.PerformEverywhere | idioticapi/Client.py:96 | An unchecked endpoint served everywhere always issues its request: on the production path in production and on the development path otherwise. |
| Dispatch.PerformChoice | idioticapi/Client.py:904-908 | In development a theme-checked endpoint issues its request exactly when the theme is an allowed string. Otherwise it raises the theme `TypeError`. |
| Dispatch.BuildWelcome | idioticapi/Client.py:655-662 | `welcome` succeeds exactly when usertag and guild are strings and either the client is in development or the version is gearz. A non-string usertag or guild raises quote's `TypeError` before the version check. |
| Dispatch.BuildGoodbye | idioticapi/Client.py:676-681 | `goodbye` succeeds exactly when the usertag is a string and either the client is in development or the version is gearz. A non-string usertag raises quote's `TypeError` first. |
| Dispatch.BotFlag | idioticapi/Client.py:925 | `str(bot).lower()`: as long as `str(bot)`, with no capital left. |
| Dispatch.CallEndpoint | idioticapi/Client.py:85-908 | A table call raises the arity error exactly when its argument count does not fit. Any request it issues is authorized for the client's host. |
| Dispatch.Build | idioticapi/Client.py:641-925 | Whatever call is made, a request it issues carries the client's header and token to the client's host. |
| Dispatch.InvokeBinds | idioticapi/Client.py:85-908 | A table call binds its arguments and performs the endpoint, or fails with the arity error. |
| Behaviour.EnvironmentRespected | idioticapi/Client.py:46-49 | For a constructed client, every issued request uses `Authorization` and the dev host in development, and `token` and the api host in production. |
| Behaviour.ProductionRefusesDevOnly | idioticapi/Client.py:136-138 | In production every development-only endpoint, called with a fitting argument count, raises its own `NotAvailable`. The one exception is a failing range check, which raises `InvalidParam` first. No request is issued. |
| Behaviour.ColorIsColour | idioticapi/Client.py:729-731 | Once its one argument binds, `color` produces exactly the request or error of `colour`. |
| Behaviour.ColorOwnArity | idioticapi/Client.py:729 | A `color` call with the wrong number of arguments fails naming `color` itself. |
| Behaviour.ClassicServedEverywhere | idioticapi/Client.py:96 | A classic generator with all its arguments always issues its request: at `/<name>` in production and `/generators/<name>` in development, with every parameter sent under its own name. |
| Behaviour.BlameQuery | idioticapi/Client.py:96 | blame sends its argument as `?name=<name>`. |
| Behaviour.BlameExample | idioticapi/Client.py:85-96 | A production client blaming a name without `w` requests exactly `https://api.anidiots.guide/blame?name=<name>` with its `token` header. |
| Behaviour.RangeCheckedFirst | idioticapi/Client.py:492-496 | An invalid intensity raises `InvalidParam` with the parameter's name even in production. In development, a call succeeds exactly when the intensity is an int in 0..255 or a bool. |
| Behaviour.TextTypeChecked | idioticapi/Client.py:738-740 | In development a text endpoint refuses a non-string text with its own message before looking at the style. |
| Behaviour.StyleAcceptedExactly | idioticapi/Client.py:756-770 | `tiny` and `cursive` accept a style exactly when its lower-case form is one of theirs, and send that lower-case form. A string style whose lower-case form is not allowed raises `TypeError` with the endpoint's style message. A non-string style fails on `.lower()`. |
| Behaviour.StyleCaseInsensitive | idioticapi/Client.py:758-759 | A style and its lower-case form give the same outcome. |
| Behaviour.OsuThemeExact | idioticapi/Client.py:897-908 | In development osu succeeds exactly when the theme is exactly `dark`, `light` or `darker`. `Dark` is refused with the theme message, and an omitted theme is `dark`. |
| Behaviour.GreetingsDefaultGearz | idioticapi/Client.py:641 | An omitted version means gearz for both `welcome` and `goodbye`. |
| Behaviour.GreetingsRefusedInProduction | idioticapi/Client.py:657-659 | In production, with quoting successful, both greetings refuse every version but gearz with the `Anime` message. |
| Behaviour.AnimeWelcomeIgnoresGuild | idioticapi/Client.py:657-661 | A non-gearz welcome does not send the guild: any two guild strings give the same outcome. |
| Behaviour.GearzWelcomeRequest | idioticapi/Client.py:655-662 | A gearz `welcome` requests `/gearz_welcome` in production and `/greetings/gearz_welcome` in development, with the query `?guild=<quoted guild>&bot=<bot>&usertag=<quoted usertag>&avatar=<avatar>`. |
| Behaviour.GearzWelcomeParametersFixed | idioticapi/Client.py:655-662 | In gearz neither the usertag nor the guild can add a query parameter: any two of them give URLs with the same number of `&`. |
| Behaviour.AnimeWelcomeRequest | idioticapi/Client.py:657-661 | A non-gearz `welcome` in development requests `/greetings/<version>_welcome` with `?bot=<bot>&usertag=<raw usertag>&avatar=<avatar>` and no guild. |
| Behaviour.AnimeUsertagAddsParameters | idioticapi/Client.py:661 | In that branch the raw usertag can add parameters: each `&` it holds is one more `&` in the URL. |
| Behaviour.GoodbyeRequest | idioticapi/Client.py:676-681 | A served `goodbye` requests `/<version>_goodbye` in production and `/greetings/<version>_goodbye` in development, with `?bot=<bot>&usertag=<quoted usertag>&avatar=<avatar>` in every version. |
| Behaviour.GoodbyeParametersFixed | idioticapi/Client.py:676-681 | The usertag never adds a query parameter to `goodbye`: any two usertags give URLs with the same number of `&`. |
| Behaviour.QueryParameters | idioticapi/Client.py:299 | A query whose keys and values hold no `&` has exactly one parameter per field. |
| Behaviour.PairsParameters | idioticapi/Client.py:299 | The pairs of such a query hold exactly one `&` fewer than their fields. |
| Behaviour.GreetingRequest | idioticapi/Client.py:910-925 | `greeting` requests `/greetings/unified` with its nine fields in order, a boolean bot flag as `true` or `false`, and an omitted message as the empty string. |
| Behaviour.GreetingSameEverywhere | idioticapi/Client.py:925 | Apart from host and header, `greeting` sends the same URL in both environments, with path `/greetings/unified`. |
| Behaviour.WelcomePath | idioticapi/Client.py:661-662 | An issued welcome URL begins with `/<version>_welcome` in production and `/greetings/<version>_welcome` in development. |
| Behaviour.GoodbyePath | idioticapi/Client.py:681 | An issued goodbye URL begins with `/<version>_goodbye` in production and `/greetings/<version>_goodbye` in development. |
| Behaviour.GreetingBotLowercase | idioticapi/Client.py:925 | `greeting` sends `True` as `true` and `False` as `false`. It sends any string flag lower-cased, so a string and its lower-case form send the same flag. |
| QueryText.NoSeparators | idioticapi/Client.py:68 | A string holds no parameter separator exactly when it holds no `&`. |
| QueryText.SeparatorsAppend | idioticapi/Client.py:68 | The separators of a concatenation add up. |
| QueryText.QuotedHasNoSeparator | idioticapi/Client.py:655-656 | A quoted string holds no separator, whatever it was. |
| QueryText.ReplaceKeepsSeparators | idioticapi/Client.py:68 | Replacing a pattern by a replacement, neither holding `&`, keeps the number of separators. |
| QueryText.RewriteKeepsSeparators | idioticapi/Client.py:68 | The `webp` rewrite never adds or removes a query parameter. |
| QueryText.GetSeparators | idioticapi/Client.py:68 | The separators of a `_get` URL are those of host and path plus those of the query. |
| Responses.ToBytes | idioticapi/Client.py:72 | `bytes(list)` is defined exactly when every element is in 0..255, and then holds the same numbers in order. |
| Responses.BytesRoundTrip | idioticapi/Client.py:72 | A byte string sent as its list of numbers comes back unchanged. |
| Responses.Interpret | idioticapi/Client.py:69-83 | Any status but 200 raises before the body is read. With 200, `_get` yields bytes exactly when `data` is present and in range, holding those numbers, and `_text` yields the `text` field. A missing key raises `KeyError`. |
| Responses.Run | idioticapi/Client.py:61-83 | An exception raised before the request is the call's outcome. A successful call saw status 200, and yields bytes exactly for a binary request. |
| Responses.RefusalIgnoresNetwork | idioticapi/Client.py:136-138 | A refused call ends the same way whatever the network would answer. |
| Responses.ImageBytesDelivered | idioticapi/Client.py:68-72 | An image call answered with 200 and the numbers of some bytes returns exactly those bytes. |

## Left out

- The aiohttp session, `async`/`await` and the event loop: they are network I/O and concurrency. The network is a function from request to response, and the session object is not modelled.
- JSON decoding of the body: a response body is the already-decoded `data` and `text` fields, each possibly missing.
- aiohttp's encoding of `params=` in `_text`: it is a foreign library encoder. A text request carries its parameter list unencoded.
- Floats and other Python types as arguments: arguments are ints, bools, strings or `None`. Comparing a float in `br_invalid`, or formatting one, is not modelled.
- Keyword arguments: calls are positional, and an omitted trailing argument takes its default.
- `urllib.parse.quote` on `bytes` values: it is not modelled. Every non-string raises the `TypeError`.
- `__repr__` and `__str__`: they are cosmetic.
- The HTTP library's parsing of the URL it is handed: a raw `#` in a value starts a fragment, and spaces and other characters are encoded on the way out. The model stops at the string passed to `session.get`.
- A wrong number of arguments to `welcome`, `goodbye` or `greeting`: their calls have fixed shapes, with an omitted version or message as the only optional part, so the model cannot express the arity `TypeError` for them.
- PyValues.Render: total on ints, whereas Python 3.11 and later raise `ValueError` when converting an int of more than 4300 digits to a string.
- Server-side failures other than a status code, such as connection errors and malformed JSON: the server is outside the client.
- PyValues.Lower: lowers ASCII letters only, whereas Python's `str.lower` also lowers other Unicode capitals. The style decisions of `tiny` and `cursive` are unaffected, because every allowed style is plain ASCII lower case, and the only non-ASCII character whose lower-case form is pure ASCII is the Kelvin sign, which lowers to `k`, a letter no allowed style contains. A non-ASCII bot flag in `greeting` is sent unlowered in the model.
- Responses.ToBytes: a non-integer element of `data` is not modelled. Elements are integers, because bodies are already decoded.

# WLED MCP server: tool dispatch and request construction

This project models the core of `WLEDMCPServer` in `mcp-wled/index.js`. It is an MCP server with four tools that control a WLED LED controller over its JSON API:

- `wled_toggle_power`
- `wled_set_brightness`
- `wled_set_color`
- `wled_get_status`

The model covers the path from a tool call to the requests sent to the device and the text returned to the caller:

- the name switch with its unknown-tool error;
- the four handlers, each turning its arguments into a write body or a read;
- `makeWLEDRequest`, which loads the configuration lazily, builds the URL and the options object, and classifies transport failures into German error messages;
- the dispatcher's single `catch`, which turns any error into an error result whose text starts with `Fehler: `;
- the rendered texts:
  - the power wording;
  - the brightness percentage `Math.round(b / 255 * 100)`, computed exactly as `(40b + 51) / 102`;
  - the colour echo;
  - the eight-line status summary after `.trim()`.

Modules, in dependency order:

- `Wrappers`: `Option` and `Result`.
- `Decimal`: how JavaScript writes an integer into a template literal. A parser is included as its inverse, so that texts can be read back, together with `ReadAfter`, which reads the integer that follows a given text.
- `HexColor`: `handleSetColor`'s hex decoding, which removes the first `#` and reads three base-16 pairs. An upper-case encoder is included as its inverse.
- `JsonBody`: the three write bodies as `JSON.stringify` writes them, and a reader for exactly those shapes.
- `WledApi`: the configuration, the URL, the request `makeWLEDRequest` issues, the device's JSON replies, and the classification of a fetch outcome.
- `Rendering`: the percentage, the power, brightness and colour texts, `Array.prototype.join`, `String.prototype.trim` and the status summary.
- `Tools`: the argument object, the tool names, colour resolution and the translation of a handler's outcome into the result the caller sees.
- `Devices`: the WLED device as the environment the server runs against. It is a class holding `on`, `bri` and the segments, plus a log of every request sent to it and a script of transport failures keyed by request number. Each scripted failure says whether the request reached the device, and was acted on, before it failed. A timeout or an unreadable reply can come after the device applied a write; a refused connection or an unknown host cannot. Otherwise the device answers by the JSON API:
  - GET `/json/state` returns the state;
  - GET `/json` returns the state and info;
  - POST `/json/state` applies the body.
- `Server`: the `WledServer` class with its lazily loaded `config` field, the `source` field (what reading `config.json` yields at the moment), `Request` (`makeWLEDRequest`), the four handlers and `Dispatch`.
- `Scenarios`: whole call sequences against a fresh server and device. Examples: toggling twice restores the device; an unreachable device gives the unreachable message; a write that times out after reaching the device is reported as an error although the device took it; a `config.json` fixed after a failed call is picked up by the next call; after a set-colour, the status shows the same RGB text the set-colour answer echoed.

Notes on the source's behaviour:

- The tool names carry the `wled_` prefix.
- Errors are reported as `Fehler: <message>`.
- The unknown-tool text is `Unbekanntes Tool: <name>`.
- The handlers check no ranges or patterns. The input schema is only declared, so the model takes it as the handlers' precondition (`Tools.ArgsFit`) instead of modelling a rejection.
- `args.hex` is tested for JavaScript truthiness, so an empty hex string falls back to the channel arguments.
- `info.fxn || 'Unbekannt'` replaces an empty effect name as well as a missing one.
- The status summary is not validated before use. A reply without `state`, with no segment, or with no colour makes the template throw a TypeError, which the dispatcher reports.
- A failed request can still have changed the device: a write that reaches WLED and is applied can then time out, or its reply can fail to parse. The error result does not say which happened.
- A configuration that failed to load is read again on the next request, since `this.config` stays `null`; once loaded it is never reloaded.
- The configuration is loaded outside `makeWLEDRequest`'s `try`, so a load failure reaches the caller as `Fehler: Konfigurationsdatei config.json konnte nicht geladen werden`, without the `WLED-API Fehler: ` prefix.
- Without an `arguments` object, the three handlers that read it throw a TypeError; `wled_get_status` does not read it.

## Model

| member | source | states |
|---|---|---|
| Decimal.NatToString | mcp-wled/index.js:232 | a natural number's text is non-empty, all digits, has no leading zero and denotes the number |
| Decimal.IntToString | mcp-wled/index.js:232 | an integer's text starts with '-' exactly for negatives and has only digits after that |
| Decimal.IntRoundTrip | mcp-wled/index.js:232 | the text of any integer, followed by a non-digit, reads back as that integer and the rest |
| Decimal.ReadAfterOf | mcp-wled/index.js:232 | an integer written right after a given text, and followed by a non-digit, reads back from the whole text |
| Decimal.IntToStringInjective | mcp-wled/index.js:232 | distinct integers have distinct texts |
| Decimal.SlashNotInInt | mcp-wled/index.js:51 | the port's text contains no '/', so it cannot start the URL path |
| HexColor.PairValue | mcp-wled/index.js:245-247 | parseInt of a two-digit base-16 pair is below 256 |
| HexColor.RemoveFirst | mcp-wled/index.js:243 | replace('#', '') leaves a string without '#' unchanged and otherwise removes one character |
| HexColor.RemoveFirstDeletesFirst | mcp-wled/index.js:243 | replace('#', '') deletes exactly the first '#' and keeps everything around it |
| HexColor.DecodeHex | mcp-wled/index.js:243-247 | every decoded channel is in 0..255 |
| HexColor.SchemaHexIsInput | mcp-wled/index.js:142 | every string matching ^#[0-9A-Fa-f]{6}$ is decodable, and removing its '#' leaves the six digits |
| HexColor.DecodeSchemaHex | mcp-wled/index.js:241-247 | red, green and blue are the values of the first, second and third digit pair, in that order |
| HexColor.DecodeEncode | mcp-wled/index.js:241-247 | decoding the hex code of any in-range colour gives that colour back |
| HexColor.EncodeDecode | mcp-wled/index.js:241-247 | re-encoding a decoded schema hex code gives the same code up to letter case |
| HexColor.HashOptional | mcp-wled/index.js:243 | a code with or without its leading '#' decodes to the same colour |
| HexColor.DecodeRed | mcp-wled/index.js:143 | "#FF0000" decodes to red 255, green 0, blue 0 |
| JsonBody.Serialize | mcp-wled/index.js:62-64 | every body a handler sends reads back as the payload it was made from |
| JsonBody.BrightnessRoundTrip | mcp-wled/index.js:226 | the {bri: b} body reads back as brightness b |
| JsonBody.ColourRoundTrip | mcp-wled/index.js:252 | the {seg:[{col:[[r,g,b]]}]} body reads back as the colour (r, g, b) |
| JsonBody.SerializeInjective | mcp-wled/index.js:62-64 | two payloads have the same body exactly when they are equal |
| JsonBody.RedBody | mcp-wled/index.js:252 | pure red is sent as {"seg":[{"col":[[255,0,0]]}]} |
| WledApi.UrlPathOfUrl | mcp-wled/index.js:51 | the URL is http://host:port followed by the endpoint, and the device reads the endpoint back from it |
| WledApi.Url | mcp-wled/index.js:51 | the URL starts with http://, and after http://host: the port reads back, followed by the endpoint |
| WledApi.Prepared | mcp-wled/index.js:51-64 | the method is POST exactly when data is given; a body is attached exactly then and reads back as the data; URL, content type and timeout come from the configuration |
| WledApi.Classify | mcp-wled/index.js:66-79 | an outcome yields the reply exactly when the response is ok (2xx); every other outcome is an error |
| WledApi.ClassifyKinds | mcp-wled/index.js:73-79 | the unreachable message comes exactly from ECONNREFUSED or ENOTFOUND, the timeout message exactly from request-timeout, and every other failure, a non-ok status included, carries "WLED-API Fehler: ", followed for a fetch error by its own message |
| WledApi.UnreachableIsNotApi | mcp-wled/index.js:74-79 | the unreachable, timeout and API messages can never be confused with one another |
| WledApi.UnreachableMessage | mcp-wled/index.js:75 | the unreachable message starts "WLED-Gerät unter ", and after that prefix, the host and a colon, the port reads back, followed by " nicht erreichbar" |
| WledApi.TimeoutMessage | mcp-wled/index.js:77 | the timeout message reads back the configured timeout after "Timeout beim Verbinden zu WLED-Gerät (", followed by "ms)" |
| WledApi.HttpStatusReadsBack | mcp-wled/index.js:68-70 | a non-ok status surfaces as "WLED-API Fehler: HTTP <status>: <statusText>", and status and text can be read back from it |
| Rendering.Percent | mcp-wled/index.js:232 | the percentage is the integer nearest to b/255*100 |
| Rendering.PercentUnique | mcp-wled/index.js:232 | no other integer is that near, so Percent is the only correct rounding |
| Rendering.PercentNoTie | mcp-wled/index.js:232 | b/255*100 is never half-way between integers, so Math.round's tie rule never matters |
| Rendering.PercentBounds | mcp-wled/index.js:232 | for b in 0..255 the percentage is in 0..100 |
| Rendering.PercentMonotone | mcp-wled/index.js:232 | the percentage never decreases as b grows |
| Rendering.PercentExamples | mcp-wled/index.js:274 | 0, 255, 128, 127 and 64 give 0, 100, 50, 50 and 25 |
| Rendering.PowerText | mcp-wled/index.js:212-217 | the text is "WLED-Gerät wurde " and then "eingeschaltet" exactly when the power written is on, "ausgeschaltet" exactly when it is off |
| Rendering.BrightnessText | mcp-wled/index.js:232 | the brightness reads back after "Helligkeit auf ", followed by " gesetzt (", the rounded percentage and "%)" |
| Rendering.BrightnessTextInjective | mcp-wled/index.js:232 | distinct brightnesses give distinct texts |
| Rendering.RgbText | mcp-wled/index.js:254 | the set-colour echo RGB(r, g, b) is the same text the status summary writes for the colour [r, g, b], RGB(col.join(', ')) |
| Rendering.RgbTextReadsBack | mcp-wled/index.js:254 | the three channels read back from RGB(r, g, b), so distinct colours are echoed differently |
| Rendering.EffectName | mcp-wled/index.js:276 | the effect name is "Unbekannt" exactly when fxn is missing, empty or itself "Unbekannt"; otherwise it is fxn |
| Rendering.StatusLines | mcp-wled/index.js:271-279 | the summary has eight lines (StatusLinesReport states each) |
| Rendering.StatusLinesReport | mcp-wled/index.js:271-279 | line by line: the header; "Ein" exactly when on and "Aus" exactly when off; the brightness read back, followed by its rounded percentage; the first segment's first colour; the effect name or its placeholder; the version; the LED count read back; the current read back, followed by "mA" |
| Rendering.Trim | mcp-wled/index.js:280 | the trimmed text neither starts nor ends with white space, is no longer than the original, and is empty exactly when the original is all white space |
| Rendering.TrimPadded | mcp-wled/index.js:280 | trim removes exactly the white space around text that neither starts nor ends with white space |
| Rendering.StatusTextIsLines | mcp-wled/index.js:271-280 | the eight lines joined by line breaks, padded as the template pads them, trim back to themselves |
| Rendering.StatusTemplate | mcp-wled/index.js:271-280 | the template opens and closes with white space, and trimmed it is the eight status lines joined by line breaks |
| Rendering.RenderStatus | mcp-wled/index.js:265-280 | the summary is produced exactly for a {state, info} reply with a segment that has a colour, and is then the eight lines joined; a reply without state is the TypeError reading 'on', one without a segment the TypeError reading 'col', and one without a colour the TypeError reading 'join' |
| Tools.ToolNamed | mcp-wled/index.js:168-182 | a tool the switch selects has exactly that name |
| Tools.ToolNamedExactly | mcp-wled/index.js:168-182 | the switch selects a tool exactly for that tool's own name |
| Tools.ResolveColour | mcp-wled/index.js:239-250 | a non-empty hex code gives an in-range colour, and for a code of the form #RRGGBB it is the colour whose canonical hex code is that code in upper case; without a hex code the colour is the three channel arguments |
| Tools.ColourEcho | mcp-wled/index.js:254 | the echo is never empty; it is the caller's hex code verbatim, not normalised, when one was used, and otherwise the colour written, in the same RGB(...) form as the status summary |
| Tools.ChannelArgsResolve | mcp-wled/index.js:248-254 | without a hex code the channel arguments are written as they are and echoed as RGB(r, g, b) |
| Tools.HexTakesPrecedence | mcp-wled/index.js:241-254 | with a non-empty hex, changing the channel arguments changes neither the colour written nor the echo, which is the hex verbatim |
| Tools.HexAndChannelsAgree | mcp-wled/index.js:241-252 | any colour given as its hex code or as channels produces the identical write body |
| Tools.RedEitherWay | mcp-wled/index.js:241-254 | "#FF0000" and red=255, green=0, blue=0 both write {"seg":[{"col":[[255,0,0]]}]}; the echo is "#FF0000" in the first case and RGB(255, 0, 0) in the second |
| Tools.MissingArgsMessage | mcp-wled/index.js:198-241 | without an arguments object, toggle, brightness and colour throw a TypeError ("Cannot …"): a destructuring failure exactly for toggle and brightness; it is defined only for those three, as the status handler throws none |
| Tools.MissingArgsDistinct | mcp-wled/index.js:198-241 | the three handlers that read the arguments fail with three different messages |
| Tools.Translate | mcp-wled/index.js:184-193 | a result is an error exactly when the handler failed; a success passes its text through; an error's text is "Fehler: " followed by the message |
| Tools.TranslateRoundTrip | mcp-wled/index.js:184-193 | the handler's outcome can always be read back from the result |
| Tools.UntranslateRoundTrip | mcp-wled/index.js:184-193 | every result shaped like an error result is the translation of some outcome |
| Tools.TranslateInjective | mcp-wled/index.js:184-193 | distinct outcomes give distinct results |
| Devices.Device.Receive | mcp-wled/index.js:66 | a fetch appends the request to the device's log; the outcome and the new state are the device's answer: a scripted failure, with the request acted on only if it was delivered first, or else the JSON API's answer |
| Devices.Device.AnswerWrite | mcp-wled/index.js:210-252 | a write to /json/state is accepted and applied; if it is scripted to fail, it is reported as that failure and applied exactly when it was delivered |
| Server.WledServer.constructor | mcp-wled/index.js:31 | the server starts with no configuration loaded |
| Server.WledServer.EnsureConfig | mcp-wled/index.js:35-49 | the configuration is loaded only while none is held and is never reloaded; a failed load is the error "Konfigurationsdatei config.json konnte nicht geladen werden" |
| Server.WledServer.Request | mcp-wled/index.js:46-81 | without a configuration nothing is sent; otherwise exactly one request, the prepared one, is sent, and the result is the classified outcome |
| Server.WledServer.HandleTogglePower | mcp-wled/index.js:198-220 | with state given, exactly one POST of {on: state}; without it, a GET of /json/state, then, if the GET succeeded, a POST of the inverse of the power it read; the text names the power written; an error whose last request did not reach the device leaves it as it was |
| Server.WledServer.Write | mcp-wled/index.js:210-259 | the tail shared by the three writing handlers (lines 210, 226 and 252): exactly one POST of the payload to /json/state; on success the handler's text; on failure the failure's message, with the payload applied exactly when the request reached the device |
| Server.UnreachedWriteKeepsState | mcp-wled/index.js:59-77 | after one write, an error whose request did not reach the device leaves the device as it was |
| Server.WledServer.HandleSetBrightness | mcp-wled/index.js:223-236 | exactly one POST of {bri: b}, and the brightness text on success; on a failure the brightness is applied only if the request reached the device |
| Server.WledServer.HandleSetColor | mcp-wled/index.js:238-262 | exactly one POST of the resolved colour, and "Farbe auf <echo> gesetzt" on success; on a failure the colour is applied only if the request reached the device |
| Server.WledServer.HandleGetStatus | mcp-wled/index.js:265-290 | exactly one GET of /json; the device is unchanged; the text is the summary of the reply |
| Server.WledServer.Call | mcp-wled/index.js:167-183 | an unknown name or missing arguments throw the matching error with nothing loaded or sent; each tool runs its own handler, with that handler's requests, state change and outcome; an error whose last request did not reach the device leaves it as it was |
| Server.WledServer.RunTool | mcp-wled/index.js:168-179 | each tool's case runs that tool's handler, with its requests, state change and outcome |
| Server.WledServer.Dispatch | mcp-wled/index.js:164-195 | an unknown name or missing arguments give the matching error result with nothing sent; each tool's requests, state change and text are its handler's; every error result starts with "Fehler: ", and one whose last request did not reach the device (or that sent none) leaves the device state as it was |
| Scenarios.ToggleTwice | mcp-wled/index.js:198-217 | of two toggles without a state, the first names the inverse of the starting power and the second the starting power, and the device ends as it began |
| Scenarios.UnreachableBrightness | mcp-wled/index.js:74-75 | a refused connection gives "Fehler: WLED-Gerät unter host:port nicht erreichbar" after the one request, with the state unchanged |
| Scenarios.StatusTimeout | mcp-wled/index.js:76-77 | a timed-out status read gives the timeout message naming the configured milliseconds |
| Scenarios.DeliveredTimeout | mcp-wled/index.js:76-77 | a brightness write that reaches the device and then times out is reported as the timeout error, yet the device has the new brightness |
| Scenarios.ConfigFixedLater | mcp-wled/index.js:46-48 | after a call fails because config.json could not be loaded, the next call loads the file as it is then and succeeds |
| Scenarios.MissingConfig | mcp-wled/index.js:40-48 | without a loadable config.json every call that reaches a handler fails with the load error and sends nothing |
| Scenarios.UnknownTool | mcp-wled/index.js:181-182 | an unknown name is answered "Fehler: Unbekanntes Tool: <name>" before any configuration is loaded or request sent |
| Scenarios.ColourThenStatus | mcp-wled/index.js:252-275 | after a set-colour, the status colour line shows the RGB text the set-colour answer echoed |
| Scenarios.BrightnessThenStatus | mcp-wled/index.js:226-274 | after a set-brightness, the status reports that brightness with the same percentage |

## Left out

- The MCP SDK server, the stdio transport, handler registration and the `ListTools` descriptor are left out. They are library and protocol wiring. The input schemas appear only as the preconditions `Tools.ArgsFit` and `HexColor.SchemaHex`.
- Reading `config.json` and `JSON.parse` are file I/O. They are a field of the server that the environment may change between calls: `source` is the `wled` section a load would yield now, or `None` when the load fails. A file that parses but has no `wled` section is not modelled.
- WledApi.WellFormedConfig: the model requires a host without '/', so that the device can read the endpoint back from the URL (`WledApi.UrlPathOfUrl`). The source accepts any host; a host containing '/' would move the request path, which is not modelled.
- `node-fetch`, real HTTP and JSON parsing of replies are network I/O. The device is a class that answers by the WLED JSON API, with transport failures supplied as a script keyed by request number. A failure after delivery applies the whole write. Replies carry only the fields the handlers read, and `info.leds` is always present.
- `console.error` logging and `process.exit` are left out.
- Floating point is left out. `Math.round((b / 255) * 100)` is modelled exactly in integers. This equals the floating-point result for the brightness values the schema allows; far beyond them, rounding error in the double computation is not modelled.
- Decimal.IntToString does not model JavaScript's exponent notation for numbers of 1e21 and above, because the brightness, colour, port and timeout values are far below that.
- The race between the toggle's read and its write against another client of the device is concurrency with an outside actor, which the source does not guard against.
- `parseInt` on a code outside the schema reads whatever hex-digit prefix each pair has, after optional white space and sign, and gives `NaN` only when there is none. The source can therefore write negative, partly parsed or null channels. The model requires six hex digits once the first `#` is removed, which every schema-conforming code has (`HexColor.SchemaHexIsInput`).
- Server.WledServer.HandleTogglePower: a `state` of JSON `null` would be written as `{on: null}`. The model takes `state` to be a boolean or absent, as the schema declares.
- Successful results in the source omit `isError`; the model gives them `isError` false.

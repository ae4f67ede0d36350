# Eco backend MQTT dispatcher — a Dafny model

The backend of the eco app system connects to an MQTT broker, subscribes to
`eco_clients/#`, and handles every delivered message in one callback. The
callback splits the topic on `/`. The third segment picks the branch and the
second segment is reused verbatim as the device id:

- `status`: unsubscribe `eco_clients/<id>/status` and
  `eco_clients/<id>/server_response`;
- `data`: escape the payload (each CR becomes the two characters `\r`, each LF
  the two characters `\n`) and publish it back to
  `eco_clients/<id>/server_response`;
- anything else, including `server_response` and topics of fewer than three
  segments: nothing.

The client id of the connection ends in `generateRandomString(8)`, a loop that
appends characters drawn from a 62-character alphabet.

Modules:

- `Topics` (`topics.dfy`): JavaScript's `split("/")` and its inverse `Join`,
  with both round trips proved.
- `Payload` (`payload.dfy`): the chained `replace` escape, proved equal to a
  one-pass per-character reference, and its properties: no CR/LF in the
  result, the length arithmetic, order preservation, idempotence and
  non-injectivity.
- `Dispatcher` (`dispatcher.dfy`): the handler as a pure step function
  `Handle` over a `State` (the literal set of subscribed filters and the
  outbox of publishes), the class `Backend` whose `OnMessage` method updates
  those two fields in place and is proved to follow `Handle`, and the lemmas
  about each branch.
- `RandomString` (`random_string.dfy`): `generateRandomString` as a method
  with a `for` loop, with `Math.random()` replaced by a sequence of draws in
  [0, 1).

The handler takes any second segment as the device id, with no check of its
form, only unsubscribes on `status`, and echoes the escaped payload itself as
the reply on `data`.

One property shows in the model. Subscriptions are a literal set of
filters, and the only filter the backend ever subscribes is `eco_clients/#`.
The filters the `status` branch drops all end in `/status` or
`/server_response`, so they are never that filter.
`Dispatcher.RunKeepsInvariant` proves that from start-up, whatever messages
arrive, the subscription set stays exactly `{eco_clients/#}`: in this literal
model the `status` branch's unsubscribes never remove anything.

## Model

| member | source | states |
|---|---|---|
| `Topics.Split` | app/index.ts:21 | `topic.split("/")` has one more segment than the topic has `/` characters, and no segment contains `/` |
| `Topics.JoinSplit` | app/index.ts:21 | joining the segments of any topic with `/` gives the topic back |
| `Topics.SplitJoin` | app/index.ts:22-23 | a topic built from slash-free segments splits back into exactly those segments |
| `Dispatcher.Route` | app/index.ts:21-24 | `split("/")[2]` picks the branch and `split("/")[1]` is the device id; a routed topic has at least two `/` and its device id contains no `/` |
| `Dispatcher.DeviceTopic` | app/index.ts:22-23 | the template topic `eco_clients/<id>/<channel>` splits into exactly `eco_clients`, the id and the channel when neither contains `/` |
| `Dispatcher.StatusTopic` | app/index.ts:22 | `eco_clients/<id>/status` splits into exactly `eco_clients`, the id and `status` for a slash-free id |
| `Dispatcher.ResponseTopic` | app/index.ts:29 | `eco_clients/<id>/server_response` splits into exactly `eco_clients`, the id and `server_response` for a slash-free id |
| `Dispatcher.Run` | app/index.ts:19-33 | the callback applied to each delivered message in turn only ever removes filters, keeps every earlier publish and adds at most one publish per message |
| `Dispatcher.Handle` | app/index.ts:19-33 | one message never adds a filter, appends at most one publish and keeps every earlier one, and never both drops filters and publishes |
| `Dispatcher.RouteBySegments` | app/index.ts:21-24 | for a topic of three or more segments the branch depends only on the third segment, and the device id is the second, whatever the namespace and the later segments are |
| `Dispatcher.RouteShortTopic` | app/index.ts:21-24 | a topic with fewer than two `/` (fewer than three segments) is ignored |
| `Dispatcher.RoutedDeviceIsSegment` | app/index.ts:22-23 | the reused device id never contains `/`, so the topics built from it split into exactly `eco_clients`, the id and the channel |
| `Dispatcher.HandleIgnored` | app/index.ts:21-32 | a topic routed to no branch (including a third segment of `server_response`) leaves filters and outbox unchanged |
| `Dispatcher.HandleStatus` | app/index.ts:21-23 | a `status` message removes exactly `eco_clients/<id>/status` and `eco_clients/<id>/server_response`, adds no filter and publishes nothing |
| `Dispatcher.HandleStatusIdempotent` | app/index.ts:22-23 | handling the same `status` message twice gives the same state as handling it once |
| `Dispatcher.HandleData` | app/index.ts:24-31 | a `data` message leaves the filters unchanged and appends one publish of the escaped payload to `eco_clients/<id>/server_response`, and that payload holds no CR or LF |
| `Dispatcher.HandleDataAnyNamespace` | app/index.ts:24-31 | a `data` message on `<ns>/<id>/data` publishes the escaped payload to `eco_clients/<id>/server_response` whatever `<ns>` is, and changes nothing else |
| `Dispatcher.EchoIgnored` | app/index.ts:28-31 | the topic of a publish the handler issues is itself ignored by the handler, so the server never answers its own echo |
| `Dispatcher.HandleKeepsInitialFilter` | app/index.ts:6-23 | no message removes or adds the filter `eco_clients/#` |
| `Dispatcher.HandlePreservesQuiet` | app/index.ts:24-31 | if every earlier publish is single-line and ignored when fed back, the same holds after one more message |
| `Dispatcher.RunKeepsInvariant` | app/index.ts:5-33 | from the state after the connect-time subscription, any sequence of messages leaves the subscriptions exactly `{eco_clients/#}` and only single-line, ignored publishes in the outbox |
| `Dispatcher.Backend.constructor` | app/index.ts:5-6 | the connection starts subscribed to exactly `eco_clients/#` with nothing published |
| `Dispatcher.Backend.Unsubscribe` | app/index.ts:22-23 | `mqtt.unsubscribe` removes one filter and changes nothing else |
| `Dispatcher.Backend.Publish` | app/index.ts:28-31 | `mqtt.publish` appends one publish and changes nothing else |
| `Dispatcher.Backend.OnMessage` | app/index.ts:19-33 | the in-place handler leaves exactly the state `Handle` gives and keeps the connection invariant (subscriptions exactly `{eco_clients/#}`, every publish single-line and ignored when fed back) |
| `Payload.ReplaceAll` | app/index.ts:26 | a global single-character replace removes that character when the replacement does not contain it, and keeps or omits every other character exactly as the input does |
| `Payload.EscapeIsPerCharacter` | app/index.ts:26 | the two chained replacements equal escaping each character on its own |
| `Payload.EscapeAppend` | app/index.ts:26 | escaping a concatenation is concatenating the escapes, so every character keeps its order |
| `Payload.Escape` | app/index.ts:26 | the chained `replace(/\r/g, …).replace(/\n/g, …)` leaves no CR and no LF, and every character other than CR, LF, `\`, `r` and `n` occurs in the result exactly when it occurs in the payload |
| `Payload.EscapeLength` | app/index.ts:26 | the escaped length is the raw length plus the number of CRs plus the number of LFs |
| `Payload.EscapeFixesSingleLine` | app/index.ts:26 | a payload without CR and LF is returned unchanged; existing backslashes are not escaped |
| `Payload.EscapeIdempotent` | app/index.ts:26 | escaping the escaped payload changes nothing |
| `Payload.EscapeNotInjective` | app/index.ts:26 | two different payloads, one with a CR and one with the two characters `\r` in its place, escape to the same string |
| `RandomString.Index` | app/components/randomString.ts:6 | for a draw in [0, 1), `Math.floor(draw * 62)` is a valid index into the alphabet |
| `RandomString.CharAt` | app/components/randomString.ts:6 | `charAt` returns exactly one character, the one at the index, when the index is in range and the empty string otherwise |
| `RandomString.Slug` | app/components/randomString.ts:4-8 | the string built from the draws has exactly one character per draw |
| `RandomString.SlugInAlphabet` | app/components/randomString.ts:6 | every character built from draws in [0, 1) belongs to the alphabet |
| `RandomString.CharactersIsLiteral` | app/components/randomString.ts:1-2 | the alphabet is exactly the `characters` literal |
| `RandomString.CharactersAreAlphanumeric` | app/components/randomString.ts:1-2 | the alphabet has 62 characters and holds exactly the upper-case letters, lower-case letters and digits |
| `RandomString.SlugPrefix` | app/components/randomString.ts:4-7 | what the loop has built after k iterations is a prefix of its final result |
| `RandomString.GenerateRandomString` | app/components/randomString.ts:3-9 | the loop returns exactly `length` characters, each an alphanumeric from the alphabet, equal to the string built from the first `length` draws |

## Left out

- The connect-time `mqtt.subscribe` callback, `process.exit` on a subscribe error, and the reconnect and error callbacks (app/index.ts:5-17): transport I/O. The model starts in the state after a successful subscription.
- The SIGINT/SIGTERM shutdown handlers (app/index.ts:36-49): process lifecycle.
- `process.stdout.write` logging (app/index.ts:3, 27): output only.
- `Buffer.toString()` decoding (app/index.ts:20, 25): the payload is taken as a string already.
- MQTT wildcard matching: subscriptions are a literal set of filter strings, so the model does not say whether unsubscribing a concrete topic changes what `eco_clients/#` delivers.
- Concurrency between message callbacks: the handler has no `await`, so each message is one atomic step.
- RandomString.GenerateRandomString: `Math.random()` becomes a sequence of draws in [0, 1) supplied by the caller, one per iteration; non-integer and negative `length` values, which rely on JavaScript number semantics, are not modelled (`length` is a `nat`).
- RandomString.Index: the product `draw * 62` is exact real arithmetic, without the IEEE double rounding of the source, so for a few draws just below a multiple of 1/62 the model picks the character one position lower than the source does (for example 0.5161290322580645 gives index 31, `f`, where the source gives 32, `g`); the length, range and alphabet results hold either way.
- app/clients.ts is not part of this model: environment checks, `mqtt.connect` (whose client id uses `generateRandomString(8)`) and the database connection are configuration and I/O.
- app/components/getCwaData.ts is not part of this model: a network wrapper around `fetch` that the handler never calls.

# Stateless MCP server on /mcp: request-handling model

This project models the request-handling layer of a small Model Context
Protocol server (`src/ts/mcpserver/src/index.ts`). The server answers
JSON-RPC 2.0 messages over HTTP on the single path `/mcp`:

- **AuthGate** (`auth_gate.dfy`) is the bearer-token middleware. It runs
  before every handler on `/mcp`. It reads the optional `Authorization`
  header and the optional secret `MCP_AUTH_TOKEN`. The header is checked
  first: a missing, empty or non-`Bearer ` header gets 401 / -32001
  "Unauthorized: Bearer token required", whatever the secret. Then an
  absent or empty secret switches checking off. Otherwise the token must
  equal the secret exactly, or the answer is 401 / -32001
  "Unauthorized: Invalid token". The token is the header without its first
  seven characters. `Authorized` is an independent reference definition of
  an accepted header, stated with an existential rather than slicing.
- **Router** (`router.dfy`) covers the three handlers on `/mcp`. An admitted
  POST either gets the transport's response or, if processing threw,
  500 / -32603 "Internal server error". GET and DELETE always get
  405 / -32000 "Method not allowed.". Other methods (HEAD aside, which the
  framework sends to the GET handler) pass the gate and then find no handler. Every error body has `jsonrpc` "2.0" and `id` null. Its
  code is the reserved "Internal error" (-32603) or lies in the server-error
  range -32099..-32000 of section 5.1 of the JSON-RPC 2.0 specification.
- **Handlers** (`handlers.dfy`) holds the "greeting-template" prompt and the
  "greeting-resource" resource. Both build a fixed-shape result. The
  resource handler writes its URI a second time, as a separate literal; the
  model proves that it equals the registered URI.
- **NotificationStream** (`notification_stream.dfy`) is the
  "start-notification-stream" tool. It is a `while` loop that numbers
  notifications 1, 2, … and swallows failed sends. The environment supplies
  one success/failure outcome per send attempt in `sendOk`. The length of
  `sendOk` is how long the run is observed. With `count == 0` the loop
  never exits, so every observation ends with `StillRunning`.
- **Ping** (`ping.dfy`) is the "ping" tool. A class holds the toggle captured
  by each `getServer()` call. The toggle starts false and is flipped before
  each use: delays go 100, 1000, 100, … on one instance.
- **NumberText** (`number_text.dfy`) renders integer-valued numbers in
  template literals (`${interval}`, `${counter}`, elapsed time). `Parse` is
  its proved inverse.
- **Protocol** (`protocol.dfy`) holds the JSON-RPC error envelope, the error
  codes and the tool-result shape.

Behaviour of the code worth noting:

- Without a secret, a request with no bearer header is still refused. The
  header test comes before the secret is consulted.
- The ping toggle is per server instance. Each `getServer()` call captures a
  new one, and `getServer()` runs once per POST (line 182). So every request
  starts again with the short delay. Alternation shows only among the pings
  that one POST carries.
- `count == 0` makes the stream loop forever. The schema's description text
  says "0 for 100", but the loop does not do that.
- The "authentication disabled" warning is logged on every such request, not
  once.
- The resource's content item carries only `uri` and `text`. `text/plain` is
  part of the registration only.

## Model

| member | source | states |
|---|---|---|
| `AuthGate.Check` | src/ts/mcpserver/src/index.ts:143-177 | A missing or non-`Bearer ` header is rejected with -32001 "Bearer token required", whatever the secret. A request that proceeds has a `Bearer ` header. Every rejection is a well-formed -32001 body. A `Bearer ` header is rejected only when a non-empty secret is set, and then with "Invalid token". |
| `AuthGate.BearerHeaderSplits` | src/ts/mcpserver/src/index.ts:145-156 | "Bearer " + token passes the prefix test, and removing seven characters gives back the token. |
| `AuthGate.CheckAdmitsExactlyAuthorized` | src/ts/mcpserver/src/index.ts:144-176 | The gate proceeds if and only if the header is "Bearer " + some token and either the secret is absent or empty, or the token equals it. |
| `AuthGate.AnyTokenPassesWhenDisabled` | src/ts/mcpserver/src/index.ts:156-163 | With the secret absent or empty, every `Bearer ` header proceeds, whatever its token. |
| `AuthGate.TokenComparedExactly` | src/ts/mcpserver/src/index.ts:156-176 | With a non-empty secret, a `Bearer ` request proceeds if and only if its token equals the secret. Otherwise it gets 401 / -32001 "Unauthorized: Invalid token". |
| `Router.Handle` | src/ts/mcpserver/src/index.ts:143-248 | The gate answers first, for every method. Only an admitted POST whose processing did not throw gets the transport's response. An admitted POST that throws gets 500 / -32603 "Internal server error". An admitted GET or DELETE gets 405 / -32000 "Method not allowed.". An admitted request with any other method finds no handler (`NotRouted`). Every error body is JSON-RPC 2.0 with id null, and its status matches its code (401/-32001, 405/-32000, 500/-32603). |
| `Router.ProcessedExactlyWhenAuthorizedPost` | src/ts/mcpserver/src/index.ts:143-218 | The transport's response is produced if and only if the request is a POST, is authorized under the reference definition, and its processing does not throw. |
| `Router.GetAndDeleteNeverProcessed` | src/ts/mcpserver/src/index.ts:220-248 | GET and DELETE always get an error: 401 from the gate or 405 / -32000. The answer does not depend on whether processing would fail. |
| `Router.MissingHeaderRefusedEvenWithoutSecret` | src/ts/mcpserver/src/index.ts:144-163 | A request without an Authorization header gets 401 / -32001 "Bearer token required", for any method, even when no secret is configured. |
| `Handlers.GreetingPrompt` | src/ts/mcpserver/src/index.ts:30-42 | Exactly one message, with role "user" and text content. The name reads back from the text "Please greet " + name + " in a friendly manner.". |
| `Handlers.GreetingPromptInjective` | src/ts/mcpserver/src/index.ts:30-42 | Different names give different prompt results. |
| `Handlers.ReadGreeting` | src/ts/mcpserver/src/index.ts:118-131 | Exactly one content item. Its uri equals the registered resource URI, and its text is "Hello, world!". The handler takes no input, so every read is the same. |
| `NotificationStream.WithDefaults` | src/ts/mcpserver/src/index.ts:50-57 | An omitted interval becomes 100 and an omitted count becomes 10. Given values are kept. |
| `NotificationStream.Attempts` | src/ts/mcpserver/src/index.ts:65-76 | The first k notifications the loop sends: exactly k of them, the i-th carrying counter i + 1 with method "notifications/message" and level "info". |
| `NotificationStream.Data` | src/ts/mcpserver/src/index.ts:74 | The data text starts with "Periodic notification #", the counter's digits follow and read back as the counter, and the rest is exactly " at " + timestamp, so the digits end where " at " begins. |
| `NotificationStream.Confirmation` | src/ts/mcpserver/src/index.ts:84-91 | The tool's result is a single text item, "Started sending periodic notifications every ${interval}ms". |
| `NotificationStream.ConfirmationNamesInterval` | src/ts/mcpserver/src/index.ts:88 | The confirmation text has the fixed opening and the "ms" suffix, and the interval reads back from between them. |
| `NotificationStream.DeliveredExactly` | src/ts/mcpserver/src/index.ts:67-79 | A failed send loses its own notification and nothing else: counter c reaches the client exactly when 1 <= c <= k and the c-th send succeeded. |
| `NotificationStream.DeliveredStep` | src/ts/mcpserver/src/index.ts:67-79 | One more iteration adds its counter to the delivered counters exactly when its send succeeded, and that counter was not there before. |
| `NotificationStream.DeliveredCount` | src/ts/mcpserver/src/index.ts:67-79 | The client receives exactly as many notifications as there were successful sends. |
| `NotificationStream.AllDeliveredWhenSendsSucceed` | src/ts/mcpserver/src/index.ts:67-79 | When no send fails, every counter 1..k reaches the client. |
| `NotificationStream.Run` | src/ts/mcpserver/src/index.ts:59-92 | Attempt i carries counter i + 1, with method "notifications/message" and level "info", whatever the send outcomes. The delivered counters are those of the attempts whose send succeeded. A failure neither stops the loop nor skips or repeats a counter. With count > 0 there are exactly count attempts, then the confirmation result. A negative count sends nothing and returns at once. Count 0 never leaves the loop, however long it is observed. |
| `NotificationStream.DefaultsSendTen` | src/ts/mcpserver/src/index.ts:50-88 | With no arguments the tool runs with (100, 10), attempts ten notifications numbered 1 to 10, and confirms "Started sending periodic notifications every 100ms". |
| `NumberText.FormatNat` | src/ts/mcpserver/src/index.ts:74 | Decimal digits of a natural number: non-empty, digits only, and no leading zero. |
| `NumberText.Format` | src/ts/mcpserver/src/index.ts:88 | The text starts with "-" exactly for negative numbers, and the rest is digits without a leading zero. |
| `NumberText.ParseFormat` | src/ts/mcpserver/src/index.ts:88 | Parse is the inverse of Format on every integer. |
| `NumberText.FormatInjective` | src/ts/mcpserver/src/index.ts:111 | Distinct numbers are rendered as distinct texts. |
| `Ping.ShortAfterOdd` | src/ts/mcpserver/src/index.ts:96-101 | After n invocations the toggle is set if and only if n is odd. |
| `Ping.InvocationDelay` | src/ts/mcpserver/src/index.ts:96-102 | Invocation n waits 100 ms when n is odd and 1000 ms when n is even. Invocations n and n + 2 wait alike, and n and n + 1 differ. |
| `Ping.ResponseTime` | src/ts/mcpserver/src/index.ts:106-114 | A single text item: "Ping response time: ", then exactly the canonical decimal text of end minus start, then "ms"; the elapsed time reads back from the text between them. |
| `Ping.PingTool.constructor` | src/ts/mcpserver/src/index.ts:96 | A new instance's toggle is false, with no invocations yet. |
| `Ping.PingTool.Ping` | src/ts/mcpserver/src/index.ts:99-115 | Flips the toggle before use and chooses the delay from the new value. It keeps the invariant that the toggle equals its value after the number of invocations so far. |
| `Ping.PingOnFreshServer` | src/ts/mcpserver/src/index.ts:182 | The first ping on the server that a POST builds waits the short delay (100 ms). |

## Left out

- HTTP plumbing (the framework's routing, request/response conversion, `serve`) is not modelled. A method other than POST, GET or DELETE is reported as `NotRouted`; the framework's default answer (including its handling of HEAD) is outside the model.
- Router.Handle: `processingFailed` covers only failures inside the POST handler's `try` (lines 184-202). `toReqRes` (line 180) and `getServer()` (line 182) run before the `try`, and `return toFetchResponse(res)` (line 203) is not awaited, so its rejection escapes the `catch` at line 204. Such failures get the framework's default plain-text 500, not the -32603 body, and are not modelled.
- The protocol SDK (server, transport, `connect`, `handleRequest`, the streaming of notifications, registry lookup and schema validation) is foreign code. Only whether POST processing threw is modelled.
- Sleeps, `Date.now()` and ISO timestamps depend on timing and the clock. The ping's chosen delay is modelled, and its clock readings and the notification timestamp are parameters.
- NotificationStream.Run: an endless run is observed through a finite prefix. `sendOk` supplies the outcome of each send, and its length bounds how many sends are observed.
- NotificationStream.Run: the notifications that reach the client are reported as a set of counters, not as a list. Their order is the counters' order, because sends happen in counter order.
- NotificationStream.Run: the notification's `data` text is not carried in the result. `Data` gives that text for a counter and a timestamp.
- Numbers are JavaScript floats. Count, interval and times are modelled as integers. NumberText.Format covers integer values only, not exponent notation for magnitudes of 1e21 and above.
- Closing the transport and server on `res.on("close")`, and concurrent requests, are not modelled (lifecycle and concurrency).
- `console` logging, including the "authentication disabled" warning, is not modelled.
- The CDK stack, the CDK entry points and the bundler configuration are not modelled. They only declare infrastructure.

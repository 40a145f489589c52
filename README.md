# unpackerr webhook dispatcher, modelled in Dafny

This project models the outbound webhook dispatcher of unpackerr
(`pkg/unpackerr/webhook.go`). When an extraction item changes state, unpackerr
builds a JSON payload. It picks the configured hooks whose event filter
matches and whose exclusion list does not name the application. Then it POSTs
the payload to each of those hooks and counts posts and failures per hook.

The model has five files:

- `webhook.dfy` (module `Webhook`) holds the core.
  - Hook normalisation (`validateWebhook`). A `WebhookConfig` class has the
    same fields as the Go struct. `Unpackerr.ValidateWebhook` rewrites each
    listed hook in place. The pure function `Normalise` specifies what
    happens to one hook, with helpers `Nickname` and `DefaultEvents`.
  - The filters `HasEvent` and `Excluded`. They take the hook's `Events`,
    respectively `Exclude`, field in place of Go's receiver.
  - `logEvents`, as a method with the same loop, proved against the fold
    `Accumulate` and related to a plain `Join`.
  - The status decision of `send`.
  - The counters of `Send`, `Counts` and `WebhookCounts`.
  - The skip rule, the payload shaping and the hook selection of
    `sendWebhooks`.
  - The render-then-send step of `sendWebhookWithLog`.
- `extract.dfy` (module `Extract`) holds the records webhook.go reads but
  does not define:
  - the `ExtractStatus` enumeration. It is a `uint8` whose order matters for
    the `<=` test. Its values WAITING = 0, EXTRACTED = 4 and IMPORTED = 5 are
    defined outside webhook.go, and no proof depends on them.
  - the folder watcher's application name, `"Folder"`, also defined outside
    webhook.go.
  - the extraction item and its response.
- `bytes.dfy` (module `Bytes`) treats Go strings as byte sequences. It has
  ASCII case folding (what `strings.EqualFold` does on ASCII) and the decimal
  formatting behind `"WebhookURL%d"`, with its round trip.
- `wrappers.dfy` holds `Option`, which stands for Go's nil pointers and nil
  errors.
- `scenarios.dfy` (module `Scenarios`) holds concrete cases:
  - the status-code boundaries, case-insensitive exclusion and nickname
    lengths.
  - three end-to-end dispatches on freshly built hooks.

What the network, the template engine and `ExtractStatus.String()` do
becomes a parameter:

- an `Exchange` (no request, no response, or a status code with its body)
- a `rendered` flag
- a `name` function

Four points where the code behaves differently from what one might expect;
the model follows the code:

- Normalisation does not make a timeout positive. A zero hook timeout with
  a zero global default stays zero (`Normalise`).
- The display `Name` can stay empty after normalisation, when both name and
  URL are empty. The nickname is never empty (`Nickname`).
- A failed template render never reaches `Send`, so it is not counted as a
  failure (`Unpackerr.SendWebhookWithLog`).
- Normalising twice is not idempotent. An unnamed hook with a URL gets the
  nickname `WebhookURL<i>` on the first pass and its URL on the second
  (`NormaliseTwice` gives the exact condition). `validateWebhook` runs once
  at start-up.

## Model

| member | source | states |
|---|---|---|
| `Webhook.HasEvent` | pkg/unpackerr/webhook.go:236-246 | true iff the status is in the filter or the filter is exactly [WAITING]; false for an empty filter |
| `Webhook.Excluded` | pkg/unpackerr/webhook.go:225-234 | true iff some exclusion entry equals the application name once both are lower-cased; false for an empty list |
| `Bytes.EqualFold` | pkg/unpackerr/webhook.go:228 | the byte-by-byte case-insensitive comparison agrees with comparing the lower-cased strings |
| `Scenarios.ExcludedIgnoresCase` | pkg/unpackerr/webhook.go:226-234 | an entry "Sonarr" excludes "sonarr" and "SONARR" but not "radarr" |
| `Webhook.LogEvents` | pkg/unpackerr/webhook.go:208-223 | returns "all" for [WAITING], otherwise the left-to-right accumulation that adds "; " only after non-empty text |
| `Webhook.AccumulateIsJoin` | pkg/unpackerr/webhook.go:214-220 | when no status name is empty, the loop's accumulation equals the names joined by "; " and is non-empty for a non-empty list |
| `Webhook.LogEventsText` | pkg/unpackerr/webhook.go:209-223 | when no name is empty or "all": the text is "all" exactly for [WAITING], "" for no events, otherwise the "; "-joined names |
| `Webhook.Accepted` | pkg/unpackerr/webhook.go:142 | a status code is accepted iff it is one of 200, 201, 202, 203, 204 |
| `Webhook.SendOutcome` | pkg/unpackerr/webhook.go:124-147 | the reply body is returned iff a response came back with status 200..204; otherwise an error, ErrInvalidStatus with code and body for a response out of range |
| `Scenarios.StatusBoundaries` | pkg/unpackerr/webhook.go:142-146 | 200 and 204 give the body back; 199, 205, 301, 404 and 500 give ErrInvalidStatus |
| `Webhook.WebhookConfig.Send` | pkg/unpackerr/webhook.go:106-122 | returns the outcome of send; posts rises by exactly one and fails by one iff the outcome is an error; fails <= posts is kept; the configuration is untouched |
| `Webhook.RecordAllCounts` | pkg/unpackerr/webhook.go:114-119 | after N sends of which F failed, the counters have grown by exactly (N, F) |
| `Webhook.RecordAllKeepsBound` | pkg/unpackerr/webhook.go:115-119 | any run of sends keeps fails <= posts |
| `Webhook.RecordAllOrderFree` | pkg/unpackerr/webhook.go:108-119 | the counters after a run of sends do not depend on the order of the sends |
| `Webhook.WebhookConfig.Counts` | pkg/unpackerr/webhook.go:259-265 | returns (posts, fails) of the hook, with fails <= posts |
| `Webhook.Unpackerr.WebhookCounts` | pkg/unpackerr/webhook.go:248-257 | returns posts and fails summed over every listed hook, with total fails <= total posts |
| `Webhook.WebhookConfig.constructor` | pkg/unpackerr/webhook.go:20-36 | a configured hook starts with no nickname, no client and zero counters |
| `Webhook.GeneratedNickname` | pkg/unpackerr/webhook.go:152 | the generated nickname starts with "WebhookURL" and the rest is decimal digits, with no leading zero, that read back as the index |
| `Bytes.DecimalRoundTrip` | pkg/unpackerr/webhook.go:152 | reading the decimal digits of the index back gives the index |
| `Bytes.DecimalInjective` | pkg/unpackerr/webhook.go:152 | different indexes have different decimal forms |
| `Webhook.GeneratedNicknamesDistinct` | pkg/unpackerr/webhook.go:151-153 | two unnamed hooks at different indexes get different generated nicknames |
| `Webhook.Nickname` | pkg/unpackerr/webhook.go:151-158 | the nickname is a prefix of the name (or of the generated nickname when the name is empty), of length min(that length, 80); never empty; a name of at most 80 bytes is kept whole |
| `Scenarios.NicknameLengths` | pkg/unpackerr/webhook.go:156-158 | a 120-byte name gives an 80-byte nickname; a 79-byte name is kept |
| `Webhook.DefaultEvents` | pkg/unpackerr/webhook.go:168-170 | the filter is never empty afterwards; a non-empty filter is kept; an empty one becomes exactly [WAITING], a filter that matches every status |
| `Webhook.Normalise` | pkg/unpackerr/webhook.go:149-180 | an empty name is replaced by the URL and the nickname is `Nickname`; an empty content type becomes "application/json" and a set one is kept; the filter is `DefaultEvents`; a zero timeout takes the global default and a non-zero one is kept; a client is created once with the hook's final timeout and TLS flag; URL, template path, TLS flag, silent flag and exclusions are unchanged |
| `Webhook.NormaliseTwice` | pkg/unpackerr/webhook.go:149-181 | a second normalisation changes only the nickname, and changes it exactly when an unnamed hook had a URL whose nickname differs from the generated one |
| `Webhook.WebhookConfig.SetNickname` | pkg/unpackerr/webhook.go:151-158 | sets the nickname to `Nickname(name, i)` and an empty name to the URL |
| `Webhook.WebhookConfig.SetDefaults` | pkg/unpackerr/webhook.go:160-179 | fills in content type, timeout, event filter and client as the defaults say |
| `Webhook.WebhookConfig.Validate` | pkg/unpackerr/webhook.go:150-180 | the hook's configuration becomes `Normalise` of its old configuration |
| `Webhook.Unpackerr.ValidateWebhook` | pkg/unpackerr/webhook.go:149-181 | every listed hook k ends up as `Normalise` of its old configuration at index k with the global timeout; counters unchanged |
| `Webhook.BuildPayload` | pkg/unpackerr/webhook.go:43-78 | no payload iff the event is IMPORTED from the folder watcher; the payload copies path, app, ids, time and status; the extraction block is present iff status <= EXTRACTED and a response exists, with archives = extras ++ archives and the error text set only from a response error |
| `Webhook.SelectedMember` | pkg/unpackerr/webhook.go:80-86 | a hook is selected iff it is listed, its filter has the status and it does not exclude the application |
| `Webhook.SelectedAppend` | pkg/unpackerr/webhook.go:80-86 | selection keeps list order: selecting from a ++ b is selecting from a, then from b |
| `Webhook.Unpackerr.SendWebhooks` | pkg/unpackerr/webhook.go:43-87 | returns the payload and the hooks a delivery is started for: none for a skipped event, otherwise exactly the selected hooks in list order |
| `Webhook.Unpackerr.SendWebhookWithLog` | pkg/unpackerr/webhook.go:89-104 | a failed render leaves the counters alone; otherwise the counters record one send and the delivery reports its reply or its error |
| `Scenarios.DeliverToOneHook` | pkg/unpackerr/webhook.go:43-122 | one hook with empty filter and no exclusions gets exactly one delivery of a waiting event from sonarr, and a 200 reply leaves it at (1 post, 0 fails) |
| `Scenarios.ExcludedHookGetsNothing` | pkg/unpackerr/webhook.go:80-83 | the same hook excluding "sonarr" gets no delivery |
| `Scenarios.FolderImportIsSkipped` | pkg/unpackerr/webhook.go:44-46 | an IMPORTED event from the folder watcher builds no payload and reaches no hook |

## Left out

- HTTP request construction, `client.Do` and reading the response body
  (:124-140) are network I/O. Their outcome is the `Exchange` parameter.
- The HTTP client and its TLS transport (:172-179) are kept only as a record
  of the settings they are built with. The context deadline `Timeout + 1s`
  (:111) is wall-clock time and is left out.
- The goroutine per delivery (:85) is not modelled. `SendWebhooks` returns
  the hooks it would start deliveries for. The per-hook mutex (:35, :108,
  :261) is not modelled either: `Send` and `Counts` are sequential methods.
- Template loading and execution (:90-97) are not modelled. `Template()` is
  not part of this model, and text/template is an external library.
- Unpackerr.SendWebhookWithLog: both template failures become
  `rendered == false`. After a failure of `hook.Template()` (:90-93) the code
  logs and goes on to `Execute`. What `Execute` then does with the returned
  template depends on code outside this model.
- Logging is not modelled: every `Printf`/`Debugf`, `logWebhook` (:183-206),
  the newline replacement in the logged reply (:102) and the `Silent` flag,
  which only decides whether a success is logged.
- JSON serialisation of the payload is not modelled, and neither are the
  runtime and version metadata (:56-62). The metadata is an opaque
  `Metadata` parameter.
- Bytes.EqualFold: case folding covers ASCII letters only, and the strings
  are compared byte for byte otherwise. `strings.EqualFold` decodes UTF-8 and
  compares by Unicode simple folding, so it also equates "é" and "É", the
  Kelvin sign (3 bytes) and "k", "ſ" and "s", and two different invalid bytes
  such as "\xff" and "\xfe" (both decode to U+FFFD). The model treats all of
  these pairs as different.
- Webhook.Excluded: inherits the ASCII-only folding of `Bytes.EqualFold`; an
  exclusion entry that matches the application name only under Unicode
  folding or through invalid UTF-8 does not exclude it in the model.
- Webhook.WebhookConfig.Send: counters are unbounded naturals. Go's `uint`
  is 32 or 64 bits wide depending on the platform, so the counters would
  wrap after 2^32 or 2^64 posts.
- Webhook.Unpackerr.WebhookCounts: the sums are unbounded naturals, not
  wrapping `uint`s.
- Webhook.Unpackerr.ValidateWebhook: requires every hook pointer to appear
  once in the list. The configuration loader builds distinct hooks. A
  pointer listed twice would be normalised twice under two indexes, and
  that case is not modelled.
- Timeouts are integers, not `int64` nanoseconds.
- IDs and timestamps are opaque integers and byte maps.
- `ExtractStatus.String()` is defined outside webhook.go. It is the `name`
  parameter of `LogEvents`.

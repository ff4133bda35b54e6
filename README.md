# slackiveroo, modelled in Dafny

slackiveroo is a Slack app that follows Deliveroo orders. When someone shares a
`roo.it` sharing link in a channel, Slack calls the app's event endpoint. The app
checks Slack's request signature. It then keeps one tracker per shared URL in a
registry. A tracker built from a new link polls the order-status API and posts
each change of status message to every channel watching the order. It stops
after a `COMPLETED` or `FAILED` status. Sharing a link that is already tracked
adds the channel to the existing tracker. That channel is sent the latest known
status straight away.

The model has six modules:

- `Wrappers` (`wrappers.dfy`): `Option` and `Result`.
- `Seqs` (`seqs.dfy`): one regrouping fact about concatenation.
- `Strings` (`strings.dfy`): the pieces of Python the code relies on.
  - `str.split` on one character, with `Join` as its inverse.
  - `int()` on a header value, with the decimal rendering `Decimal` as its inverse.
  - `str.format` with the two fields `{w}` and `{h}`.
- `Slack` (`slack.dfy`): `slack.py`. It covers:
  - the channel (a class whose token is a mutable cache) and its equality;
  - token lookup in the team-to-token store;
  - one post with its retry after `not_in_channel`;
  - the post to a list of channels, which stops at the first failure;
  - the signature string and the verdict of the signature gate.
- `Tracking` (`tracker.dfy`): `tracker.py`. It covers:
  - the status formatter, as a function with lemmas about its result;
  - the tracking URL built from the frontend page;
  - the `Tracker` class with `add_channel`, `get_order_status` and `run`.
  - `Run` is proved against `Poll`, a recursive function over the statuses that will be fetched.
  - `Poll` takes the formatter as a parameter (`Format` in `Run`), so its lemmas hold for any formatter.
- `App` (`app.dfy`): `app.py`. The `Registry` class holds `active_trackers` and dispatches an event callback.
  - It returns the coroutines the handler schedules (a list of `Task`s) rather than running them.
  - Each `Task` either runs a new tracker or adds a channel to a known one.
  - `OnRequest` puts the signature gate in front of the handler.

How the outside world is represented:

- **Slack's Web API** is an `Api` object.
  - It holds the replies it will give, in order, and a log of the requests sent to it.
  - A call made when no reply is left is a failed HTTP call.
- **The Redis token store** is a `map` from team id to token.
- **Order statuses** come from the tracker's `backlog`, one per poll, exactly like the replaying `MockingTracker`.
  - A new tracker's backlog is the entry for its tracking URL in a map from tracking URL to statuses (empty when there is none).
  - Every replaying tracker has the URL `[MOCK]`, so they all replay the same statuses, as in the source.
- **What a tracker posts** is appended to its `outbox`, one `Post` (channels, text, blocks) per call of the module-level `post_message`.
  - `Slack.PostMessage` models how one such call is delivered.
- **The clock** is a `real` parameter.
- **HMAC-SHA256** is a function parameter `hmac(key, message)`.
- **The frontend pages** behind the sharing links are a `map` from URL to page.

## Model

| member | source | states |
|---|---|---|
| Slack.Channel.constructor | slack.py:17-19 | a new channel has the given team and channel ids and no cached token |
| Slack.Channel.Equals | slack.py:21-25 | two channels are equal exactly when their team ids and their channel ids agree |
| Slack.ChannelEquality | slack.py:21-25 | channels are equal exactly when both ids agree; equality is reflexive, symmetric and transitive, and the token plays no part in it |
| Slack.CachedToken | slack.py:32-38 | a set token is kept; an unset one (None or empty) is replaced by the store's token for the team, or None when the team has none |
| Slack.CachedTokenStable | slack.py:27-38 | a second token lookup returns what the first cached; a token that is set (non-empty) is never replaced |
| Slack.Channel.GetToken | slack.py:27-38 | the store is consulted exactly when the cached token is unset (None or empty); afterwards the token is the cached one and is returned |
| Slack.Api.Call | slack.py:64-74 | each HTTP call logs its request and consumes the next reply; with no reply left the call fails |
| Slack.Channel.Join | slack.py:40-54 | join sends one `conversations.join` for the channel with the cached token, and succeeds exactly when the reply is ok |
| Slack.Attempt | slack.py:56-79 | one post with its retries after `not_in_channel` sends at least one request and consumes no more replies than there are |
| Slack.AttemptRequests | slack.py:56-79 | the requests of one post alternate `chat.postMessage` (same channel, token, text and blocks every time) and `conversations.join` |
| Slack.AttemptReplies | slack.py:75-79 | every reply before the last request answered a post with `not_in_channel` (even positions) or a join with ok (odd positions); one reply is consumed per request, except when the replies run out |
| Slack.AttemptRest | slack.py:64-79 | the replies left after one post are the untouched suffix of the replies it was given: it consumes a prefix and nothing else |
| Slack.AttemptRetries | slack.py:75-77 | the exchange never ends on a `not_in_channel` reply to a post or an ok reply to a join: the first is always followed by a join, the second by a new post |
| Slack.AttemptJoinRetry | slack.py:75-77 | a post answered `not_in_channel`, an ok join and an ok retry: the requests are post, join, post and the post succeeds |
| Slack.AttemptOutcome | slack.py:75-79 | a post succeeds exactly when its last request was a post and that post's reply was ok |
| Slack.Channel.PostMessage | slack.py:56-79 | the method sends exactly the requests of `Attempt` and consumes exactly its replies; its result is `Attempt`'s outcome; the token ends cached |
| Slack.FanOut | slack.py:115-121 | the fan-out reaches no more channels than it is given; it reaches all of them when it succeeds, and at least the failing one when it fails |
| Slack.FanOutRest | slack.py:115-121 | the replies left after the fan-out are the untouched suffix of the script: each channel reads the replies after the previous one's |
| Slack.FanOutAllOk | slack.py:115-121 | when every reply is ok, each channel gets exactly one post, in list order, and one reply per channel is consumed |
| Slack.FanOutStops | slack.py:115-121 | once a channel's post fails, the channels after it are never contacted |
| Slack.FanOutStep | slack.py:120-121 | posting channel i extends the fold over the first i channels by that channel's exchange; a failure there is the outcome of the whole list |
| Slack.PostMessage | slack.py:115-121 | the loop sends exactly the requests of the fan-out fold over the channels' targets; only the channels it reached have their token cached |
| Slack.SignRequest | slack.py:124-135 | a signature is `v0=` followed by the keyed digest of the signed message `v0:<timestamp>:<body>` |
| Slack.SignedMessageInjective | slack.py:124-135 | the signed message `v0:<timestamp>:<body>` determines both the timestamp and the body |
| Slack.Verify | slack.py:138-164 | a bad timestamp is rejected; a timestamp more than 300 seconds from now is stale whatever the signature is; otherwise the request is accepted exactly when the signature header equals `v0=` plus the keyed digest of the signed message |
| Slack.Rejection | slack.py:146-163 | a stale request gets 403 "Invalid timestamp"; a forged one gets 403 "You're not Slack" |
| Slack.AcceptedSignatureBindsRequest | slack.py:124-164 | with an injective digest, two accepted requests that carry the same signature have the same body and timestamp |
| Strings.JoinSplit | tracker.py:93 | splitting on a character and joining back gives the original text |
| Strings.SplitJoin | tracker.py:93 | joining parts that do not contain the separator and splitting back gives the parts |
| Strings.Split | tracker.py:93 | `str.split` on one character gives at least one piece, and no piece contains the separator |
| Strings.SplitHead | tracker.py:93 | the first piece of a split is a prefix of the text that ends at the first separator, or the whole text |
| Strings.ParseInt | slack.py:145 | `int()` succeeds exactly on an optional sign followed by ASCII digits |
| Strings.ParseDecimal | slack.py:130 | parsing the decimal rendering of an integer gives the integer back |
| Strings.Decimal | slack.py:130 | the rendering of an integer in a string is non-empty, starts with `-` exactly when the integer is negative, and is otherwise made of decimal digits |
| Strings.DecimalInjective | slack.py:130 | distinct timestamps render differently |
| Strings.FormatSize | tracker.py:88 | `str.format(w=..., h=...)` raises only on a template that contains a brace |
| Strings.FormatLiteralPrefix | tracker.py:88 | brace-free text is copied unchanged by the image URL format |
| Strings.FormatFields | tracker.py:88 | `{w}` and `{h}` are replaced with the width and height |
| Strings.FormatSizeTemplate | tracker.py:88 | a template of the form literal `{w}` literal `{h}` literal formats to the literals with the width and height in place |
| Tracking.Text | tracker.py:67-81 | a `FAILED` text starts with `@here`; without an ETA the text ends with the "is here" notice; with one it starts with the restaurant and message on a line of their own |
| Tracking.Format | tracker.py:59-93 | formatting raises exactly when `included[0]` is missing or not the order (reported as such, since it is checked first) or the image template does not format (reported as a bad template); otherwise the update is one section block with the status text, the preview at 192x108 and alt text "Restaurant preview", and its summary is the text's first line |
| Tracking.FormatSummary | tracker.py:93 | the summary contains no line break and is the text up to its first line break |
| Tracking.FormatFailed | tracker.py:67-72 | a failed order's text starts with `@here` and contains the restaurant name, the status message and the short link |
| Tracking.FormatFailedLines | tracker.py:67-72 | a failed order's text has two lines: the summary and the short link |
| Tracking.FormatArrived | tracker.py:73-74 | without an ETA the text names the restaurant and announces a delivered order, and is its own summary when the name has no line break |
| Tracking.FormatWithEta | tracker.py:75-81 | with an ETA the text has three lines (restaurant and message, ETA, short link); the first is the summary |
| Tracking.FormatPreviewSize | tracker.py:88 | an image template with `{w}` and `{h}` gets 192 and 108 filled in |
| Tracking.DigitSuffix | tracker.py:35 | the digit run a path ends with: a suffix of the path made of digits, preceded by a non-digit or nothing |
| Tracking.OrderId | tracker.py:35 | an id is found only in a path of the form `<prefix>/orders/<digits>/status`, optionally followed by one line break |
| Tracking.OrderIdComplete | tracker.py:35 | every path of that form yields its id |
| Tracking.TrackingUrl | tracker.py:30-41 | a URL is built exactly when the page answered 200, its path names an order and its query has a sharing token; it is the status API URL for that order and token; each failure is named |
| Tracking.TrackingUrlOfPage | tracker.py:35-41 | a frontend page `<prefix>/orders/<id>/status?sharing_token=<t>` yields the status API URL for that id and token |
| Tracking.Tracker.constructor | tracker.py:17-21 | a new tracker has the given URL and channels, is not completed, knows no status and has posted nothing |
| Tracking.Tracker.FromSharingUrl | tracker.py:23-42 | a tracker is created exactly when the tracking URL can be built from the page; it carries that URL and will fetch that URL's statuses; otherwise the URL error is returned |
| Tracking.Tracker.MockFromSharingUrl | tracker.py:141-144 | the replaying tracker is created with the tracking URL `[MOCK]` without loading any page, and replays the statuses kept for `[MOCK]` |
| Tracking.Tracker.GetOrderStatus | tracker.py:146-149 | fetching yields the first status of the backlog and drops it; with an empty backlog the fetch fails |
| Tracking.CatchUp | tracker.py:54-57 | a newly added channel gets one post, on its own, exactly when a status is known and formats |
| Tracking.Tracker.AddChannel | tracker.py:44-57 | a channel equal to a known one changes nothing; otherwise it is appended and sent the catch-up post; a list without duplicates keeps none |
| Tracking.Poll | tracker.py:105-123 | the loop fetches no more statuses than the backlog holds |
| Tracking.PollConsumes | tracker.py:106-110 | the loop consumes a prefix of the statuses, and the current state is the last status consumed |
| Tracking.PollPostsOnChange | tracker.py:112-117 | the posts are exactly those of the reference rule (one per status whose message differs from the previous status's, addressed to the tracker's channels) over the statuses fetched, leaving out a last one whose formatting raised |
| Tracking.PollStopsAtTerminal | tracker.py:112-123 | the loop goes past a status only when it is neither terminal nor raising on formatting; it completes exactly when the last status fetched is terminal and did not raise; otherwise it has used up every status or stopped on one whose formatting raised |
| Tracking.PollCompletes | tracker.py:106-123 | the tracking completes exactly when some status to be fetched is `COMPLETED` or `FAILED` and no status up to it raises on formatting |
| Tracking.PollRaises | tracker.py:113-114 | a first status that fails to format ends the run: it becomes the current state, nothing is posted, the tracking is not completed and the next status is never fetched |
| Tracking.PollReplay | app.py:14-19 | replaying three statuses (ongoing, delivering, complete) with changing messages posts three updates and completes with nothing left |
| Tracking.Tracker.PollOnce | tracker.py:107-123 | one iteration of the loop either raises, leaving the state `Poll` predicts, or consumes a status and leaves what `Poll` predicts for the rest |
| Tracking.Tracker.Run | tracker.py:100-126 | after `run` the posts, the remaining backlog, the current state and the completion flag are those `Poll` computes from the earlier state; an already completed tracker does nothing |
| App.RooUrls | app.py:41-42 | the URLs of the `roo.it` links, in list order; never more URLs than links |
| App.SharedUrls | app.py:40-42 | a `link_shared` event yields exactly `RooUrls` of its links (the `roo.it` ones, in order); any other event yields none; never more URLs than links |
| App.RooUrlsSound | app.py:40-43 | the URLs handled are exactly those of the `roo.it` links |
| App.RooUrlsAppend | app.py:41-42 | the URLs of two link lists put together are those of the first followed by those of the second |
| App.RooUrlsAt | app.py:41-43 | a `roo.it` link's URL follows the URLs of the links before it |
| App.NewTrackingUrl | app.py:54 | a new tracker's URL is `[MOCK]` in replay mode; otherwise it is the URL built from the page the link leads to, or the failure of loading that page or building that URL |
| App.ProcessedKnown | app.py:48-51 | a URL already registered leaves the registry as it is and schedules adding the channel to that URL's tracker |
| App.ProcessedNew | app.py:52-56 | a new URL registers a tracker just started for the channel and schedules running it; no two new entries share a tracker |
| App.Registry.constructor | app.py:23 | the registry starts empty |
| App.Registry.TrackLink | app.py:44-56 | a known URL schedules adding the channel to its tracker; a new URL registers a fresh tracker built for it and schedules its run; a failed build changes nothing and returns the failure |
| App.Registry.ProcessLinks | app.py:40-56 | the `roo.it` links are handled in order until one fails; the registry gains exactly the new URLs handled and keeps the old entries; one task is scheduled per URL handled; a failure names the first URL whose tracking URL could not be built |
| App.Registry.HandledFailure | app.py:53-54 | a failure while building a tracker ends the handling with that failure, after the earlier links' effects |
| App.Registry.OnEvent | app.py:39-58 | a `link_shared` event is handled link by link and answered with an empty 200 response; any other event type changes nothing |
| App.Registry.OnSlackEvent | app.py:26-58 | a URL verification is answered with its challenge and changes nothing; an event callback is handled as above |
| App.Registry.OnRequest | app.py:26 | an unauthenticated request never reaches the handler: it changes nothing, schedules nothing and is answered 403 (or fails on a timestamp that is not an integer); an authenticated one is handled as above |

## Left out

- HTTP sessions are not modelled, and neither are the status asserts on the Slack replies (slack.py:52, slack.py:73) and on the status fetch (tracker.py:97). A Slack call either gets the next reply or fails, and its HTTP status code is not modelled. The assert on the frontend page's status (tracker.py:31) is modelled, as `PageNotOk`.
- The format and JSON decoding of request and response bodies are not modelled. Payloads and order statuses are already-decoded datatypes, and a missing key is not modelled.
- Failure on a missing signature or timestamp header is not modelled, because headers are given as strings.
- Failure on a reply without `ok` or `error` is not modelled. A reply always carries both fields.
- Redis is a map parameter. Its connection handling is not modelled.
- HMAC-SHA256 and its hex encoding are a function parameter. `AcceptedSignatureBindsRequest` assumes, as its precondition, only that the digest is injective.
- asyncio is not modelled: `sleep`, `ensure_future` and interleavings between coroutines.
  - The handler returns the tasks it schedules, and they are not run.
  - Two concurrent events for the same new URL could each start a tracker, because the registry is only written after `from_sharing_url` returns. This is not modelled.
- The exceptions raised by `format_slack_status_update` are modelled as a `Result`. Exceptions raised by `slack.post_message` inside `run` and `add_channel` are not modelled.
  - `Tracking.Tracker.Run` and `Tracking.Tracker.AddChannel` log each post in `outbox` rather than delivering it through `Slack.PostMessage`.
  - A failed delivery therefore does not stop them here.
- `get_order_status` of the real tracker (tracker.py:95-98) is left out. It reads `self.session`, which is never set.
  - Only the replaying tracker's fetch is modelled.
  - Both kinds of tracker read from `backlog`, so `Run` is the same loop for both.
- Tracking.Tracker.Run: the 15-second sleep between polls is not modelled (no clock).
- The import switch between the real and the replaying tracker (app.py:10-19) is the registry's `mock` flag.
  - The three example responses are the `[MOCK]` entry of the statuses map, a parameter, because their JSON files are not part of this model.
- `get_oauth_token`, `get_http_session`, the OAuth route, keepalive, route setup, logging and settings are not part of this model.
- Removing trackers from the registry is not modelled either, because the code never removes an entry.
- Strings.ParseInt: Python's `int()` also accepts surrounding whitespace, underscores between digits and non-ASCII digits. The model accepts an optional sign and ASCII digits only.
- Strings.FormatSize: only the fields `{w}` and `{h}` and the escapes `{{` and `}}` are modelled. Any other brace makes formatting fail. Python also raises for another field name, but it would accept a format spec or a conversion on `w` or `h` (such as `{w:d}`), which the model rejects.
- Slack.Verify: the clock is a real number and timestamps are integers. Floating-point rounding of `time()` is not modelled.
- Tracking.OrderId: the pattern's `\d` is modelled as ASCII digits only.

# KuCoin futures gateway: model and proofs

The gateway connects trading clients to an exchange. Per account, two actors share one mutable
`Request` object (six request slots and the set of stale orders): `DropCopy`, a private websocket
that runs an ordered download after every login, and `OrderEntryREST`, which serves the slots on
its timer. For market data, a `Controller` cuts an append-only symbol list into slices and keeps
one `MarketData` stream per slice. This project models these actors, the text they put on the
wire and read from it, the two ways in which the state of an order is normalised, the ping
schedulers and the back-off of the REST interceptor, and proves what every run keeps.

## Layout

| files | what they model |
|---|---|
| `LimitRequest`, `Recovery` | the shared request slots; both actors of an account as functions on values, the world they run in, its events and runs |
| `RecoveryRuns`, `RecoveryShape`, `RecoveryStaleTest`, `RecoveryReady`, `RecoveryEarlyCommit`, `RecoveryLostReply`, `RecoveryStale`, `RecoveryEmptySet`, `RecoveryStall`, `RecoveryToken`, `RecoveryPing`, `RecoveryScenario` | what every run of the two actors keeps, exactly when a session or a refresh can still go on, and concrete runs in which it cannot |
| `RecoveryEffects`, `RecoverySession`, `RecoveryScans`, `RecoveryReplies`, `RecoveryHistory` | what every event does to the world, stated apart from the handlers: the stages, the session and its status, the periodic scan, every category of response, and what follows from the events alone |
| `RecoveryActors`, `RecoveryGateway` | `Request`, `DropCopy`, `OrderEntryREST` and the controller of an account as classes, each method computing the function of `Recovery` for its event; the gateway that drives them, whose objects are always in a state that a run reaches |
| `Symbols`, `Market`, `Subscriptions`, `MarketHistory`, `MarketActors` | symbol list and slices; streams, controller and contract download as functions; what every run keeps; list, ticks and pings from the events alone; the classes, whose events keep it |
| `Ping`, `OrderEntryWs` | the ping scheduler, and the socket whose interval comes with the welcome |
| `Throttle` | the back-off state over a history of responses |
| `Json`, `Decimal`, `Maps`, `Enums`, `Encoder`, `WireText`, `EncoderRoundTrip` | a reader for the JSON that the encoder writes, fixed-point numbers, the enumeration maps, the encoder on a caller-owned buffer, its exact texts, and the round trips |
| `Search`, `Level2` | text search, the level 2 change splitter, topics |
| `OrderState` | order state from a pushed message and from a polled record |

Where the source updates fields, the class carries those fields, and its methods are proved equal
to functions on a value that holds the same fields. The runs are made of these functions. Fields
that record what happened (the history of a session, the ledger of stale orders, all messages of a
stream) are ghost in the classes and ordinary in the values.

## Assumptions

Collaborators that the repository does not contain are contracts, stated where they are used:

- A request slot (`LimitRequest`): `request` sets wanted and forgets the old response,
  `check_pending` runs its callback at most once per request and only if the rate limiter, an
  arbitrary boolean per slot and event, admits it; `commit` sets the response; `has_response` reads
  and clears it.
- `core::Download2` (`Recovery.Enter`, `Recovery.Check`): `begin` enters the first stage; the
  callback returns 0 to go on and n to wait for n checks; `check(s)` counts for the current stage
  only; `reset` stops.
- Sockets (`Recovery.Enabled`, `Market.Enabled`): connects and disconnects alternate, text arrives on an open
  socket only, there is at most one welcome per session, and the exchange acknowledges subscriptions
  only. REST callbacks come after their request, each at most once; a callback may be lost.
- `core::Symbols` (`Symbols.NumSlices`, `Symbols.Slice`) and `roq::Decimal` (`Decimal.Format`).
- The public token, with a positive ping interval, arrives before the first symbols.
- `OrderState.Legal`, `OrderState.Message` and `OrderState.Record` describe what the exchange does to
  an order.

A condition that the source asserts is a precondition or an assertion of the method concerned. The
gateway of an account, the controller of the streams and the order-entry socket discharge them from
the state that the events so far lead to. `log::fatal` is a fault that ends a run. An event may occur whenever
its contract allows it, so every theorem about runs is about all interleavings.

## What the proofs show about the code

- The check that the stale-order set is empty when the response arrives can end the process. It can
  do so in a session exactly when the download asks for stale orders while queries of an earlier
  batch are still in flight and no callback has been lost. There is such a run for every setting.
- A session that waits for stale orders can go on exactly when the response is there, or no callback
  was ever lost and a query is in flight or an order is queued. So a batch in which the dispatcher
  knows none of the queued orders leaves it waiting until the next disconnect, and after a lost
  callback every later session that asks for stale orders waits as well. Both happen for every
  setting.
- A session that waits for balances, positions, open orders or trades can go on exactly when the
  response is there, its request is still to be sent, or a reply is under way. So a lost reply leaves
  it waiting until the next disconnect, which happens for every setting.
- A refresh can still bring a token exactly when its request is still wanted or a reply is under
  way; after an answer without a token it is never repeated. That happens for exactly those settings
  under which a refresh can be requested at all.
- A slot does not know the session of a request: a session can see a commit before its own request
  is sent exactly when a reply to an earlier request is still under way. That happens for every
  setting.
- A cancel that finds everything traded is published as CANCELED from the push and as COMPLETED
  from the record; everything else agrees. It takes an exchange that sends such a cancel.
- After the first suspension a 429 no longer extends it, however long ago it was.
- The encoder does not escape: its text reads back exactly when the strings it copies hold no
  quote, backslash or control character.
- Every margin mode but CROSS goes out as ISOLATED; time in force other than GTC, IOC and FOK goes
  out as the text of an undefined value.
- Stream ids are distinct exactly up to 2^16 of them (the last is 0). Subscription ids of two streams
  collide exactly when the one with the lower stream id has sent more than a million messages for
  each step between the stream ids, and the other any.

## Model

| member | source | states |
|---|---|---|
| RecoveryReady.ReadyMeansDownloaded | src/roq/kucoin_futures/gateway/drop_copy.cpp:245-348 | In every run, a ready drop copy has published READY once in its session, after the welcome, the three acknowledged subscriptions, requests and commits of balances, positions and open orders, the look at the stale orders, their request and commit if that look found any, and the trades commit if a lookback is set, in that order |
| RecoveryStaleTest.LooksOnce | src/roq/kucoin_futures/gateway/drop_copy.cpp:277-284 | In every run, a connected session has looked at the queue of stale orders exactly once from GET_STALE_ORDERS on and not before, so it never both found some and found none |
| RecoveryEffects.TickAdvances | src/roq/kucoin_futures/gateway/drop_copy.cpp:609-653 | In every run a tick that sees the response of its stage consumes it and enters, with a new request, exactly the stage that follows: positions, orders, stale orders if any is known or reported, trades if there is a lookback, the end; only a stale-orders response that finds stale orders ends the process |
| RecoveryEffects.OpenOrdersAreScanned | src/roq/kucoin_futures/gateway/drop_copy.cpp:631-636 | In every run the tick that sees the response to the open orders queues every order that the dispatcher reports; if any is queued the session is in GET_STALE_ORDERS with a new request and exactly the union queued |
| RecoveryEffects.TickWaits | src/roq/kucoin_futures/gateway/drop_copy.cpp:609-653 | In every run a tick without the response of its stage leaves stage, status, the other slots and the stale orders alone |
| RecoveryEffects.AckAsks | src/roq/kucoin_futures/gateway/drop_copy.cpp:336-348 | In every run the acknowledgement of the subscription that the session waits for asks for balances, positions or open orders accordingly, and for nothing else; any other acknowledgement changes neither stage nor slots |
| RecoveryScans.PeriodicScan | src/roq/kucoin_futures/gateway/drop_copy.cpp:681-688 | In every run a tick of a ready session scans if and only if the period has passed since the last scan of the run; it then queues every reported order and asks for the stale orders if and only if the queue grew, and otherwise leaves queue, slot and schedule alone |
| RecoveryScans.ScansAreSpaced | src/roq/kucoin_futures/gateway/drop_copy.cpp:681-688 | In every run two periodic scans are more than the period apart |
| RecoverySession.PublishedStatus | src/roq/kucoin_futures/gateway/drop_copy.cpp:245-301 | In every run the status that an open session has published last is LOGIN_SENT before the welcome, DOWNLOADING from then on, READY at the end of the download |
| RecoverySession.ErrorRefreshesIff | src/roq/kucoin_futures/gateway/drop_copy.cpp:316-327 | An error asks for a new token if and only if it is the expired token, the setting does not crash and the query is not empty; it ends the process if and only if it is the expired token and the setting crashes; otherwise nothing changes |
| RecoverySession.TickRefreshesIff | src/roq/kucoin_futures/gateway/drop_copy.cpp:134-140 | A tick asks for a new token if and only if a simulated expiry is due and the query is not empty; the expiry fires once, and a response for the token is consumed |
| RecoverySession.RefreshesIff | src/roq/kucoin_futures/gateway/drop_copy.cpp:573-581 | Whatever the event, it requests a refresh if and only if it is one of these two |
| RecoverySession.ClosesIff | src/roq/kucoin_futures/gateway/drop_copy.cpp:129-133 | A connection that is not open is closed by a tick if and only if its logon timeout is set and has passed |
| RecoveryEarlyCommit.EarlyCommitIff | src/roq/kucoin_futures/gateway/drop_copy.cpp:609-653 | In every run, a session that waits for a slot and whose own request is not sent can see a commit of that slot first if and only if a reply to an earlier request is under way |
| RecoveryScenario.EarlyCommitHappens | src/roq/kucoin_futures/gateway/drop_copy.cpp:617-621 | For every setting there is a run in which a session sees the balances committed before its own request is sent |
| RecoveryShape.AssertionsHold | src/roq/kucoin_futures/gateway/drop_copy.cpp:116-301 | In every run the asserted conditions hold: no logon timeout when down, no welcome unless open, not ready before DONE; ready exactly while READY is the published status |
| RecoveryStale.CounterIsInFlight | src/roq/kucoin_futures/gateway/order_entry_rest.cpp:613-679 | In every run the counter is the number of order queries in flight plus those whose callback was lost, and the fatal branch is not reached |
| RecoveryStale.AnswerCounts | src/roq/kucoin_futures/gateway/order_entry_rest.cpp:667-677 | An answer of any outcome but a redirection, which is fatal, decrements the counter and commits the stale-orders slot exactly when it is the last one in flight and none was lost |
| RecoveryReplies.OrderReplyEffect | src/roq/kucoin_futures/gateway/order_entry_rest.cpp:613-679 | A redirection in answer to an order query ends the process; any other answer lowers the counter, and commits exactly when it was 1 |
| RecoveryReplies.RestTickQueries | src/roq/kucoin_futures/gateway/order_entry_rest.cpp:1088-1099 | A tick takes the whole queue if and only if the client is ready and the stale orders are wanted and admitted: one counted query per known order, one report per other order; otherwise nothing of it changes |
| RecoveryReplies.RestTickSends | src/roq/kucoin_futures/gateway/order_entry_rest.cpp:1082-1101 | For each other slot a tick sends one request if and only if the client is ready and the slot is wanted and admitted, and no response is lost |
| RecoveryReplies.RestReadyIff | src/roq/kucoin_futures/gateway/order_entry_rest.cpp:224-272 | In every run the client is READY exactly while connected with a token and DOWNLOADING exactly while connected without; a connection or retry sends one token request if and only if there is no token |
| RecoveryStale.NoOrphanedStaleOrder | src/roq/kucoin_futures/gateway/drop_copy.cpp:655-688 | In every run a non-empty stale-order set has its slot wanted |
| RecoveryStale.StaleOrdersAreConserved | src/roq/kucoin_futures/gateway/order_entry_rest.cpp:1088-1099 | In every run each insertion is still queued, or left in one batch with exactly one query or one not-found report; each query is in flight, answered or lost |
| RecoveryEmptySet.EmptySetCheckCanFailIff | src/roq/kucoin_futures/gateway/drop_copy.cpp:637-644 | For every run that enters GET_STALE_ORDERS: the session has a continuation that fails the empty-set check if and only if the counter is positive and no callback was lost |
| RecoveryScenario.EmptySetCheckFails | src/roq/kucoin_futures/gateway/drop_copy.cpp:637-644 | For every setting there is a run from the start that fails the check |
| RecoveryStall.CanLeaveIff | src/roq/kucoin_futures/gateway/drop_copy.cpp:637-644 | In every run, a session in GET_STALE_ORDERS has a continuation that goes on without a fault if and only if the response is there, or no callback was lost and a query is in flight or an order is queued |
| RecoveryStall.NoneFoundStallsIff | src/roq/kucoin_futures/gateway/order_entry_rest.cpp:1088-1099 | In every run with nothing else in flight or lost, the session can go on after a batch if and only if the dispatcher knows one of the queued orders |
| RecoveryStall.LostCallbackStallsIff | src/roq/kucoin_futures/gateway/order_entry_rest.cpp:668-677 | In every run, a session that asks for stale orders can go on if and only if no callback of a query was ever lost, in it or before it |
| RecoveryStall.LostStaysLost | src/roq/kucoin_futures/gateway/order_entry_rest.cpp:669-677 | A lost callback stays lost in every continuation, sessions included, and the counter never returns to zero |
| RecoveryScenario.NoneFoundHappens | src/roq/kucoin_futures/gateway/order_entry_rest.cpp:1088-1099 | For every setting there is a run that ends in a session stuck after a batch without a known order |
| RecoveryScenario.LostCallbackHappens | src/roq/kucoin_futures/gateway/order_entry_rest.cpp:668-677 | For every setting there is a run that ends in a session stuck after a lost callback |
| RecoveryLostReply.CanPassIff | src/roq/kucoin_futures/gateway/drop_copy.cpp:609-653 | In every run, a session that waits for balances, positions, open orders or trades has a continuation that goes on without a fault if and only if the response is there, its request is still to be sent, or a reply is under way; any reply but a redirection then does (RecoveryReplies.ReplyEndsStage) |
| RecoveryReplies.SlotReplyEffect | src/roq/kucoin_futures/gateway/order_entry_rest.cpp:364-382 | Every response to a request for balances, positions, open orders or trades commits its slot and no other, errors and network failures included; a redirection ends the process |
| RecoveryReplies.ReplyEndsStage | src/roq/kucoin_futures/gateway/drop_copy.cpp:609-653 | In every run, once any response but a redirection has come for the slot that a session waits for, the next tick of the session leaves the stage without a fault, whatever happens in between |
| RecoveryScenario.LostReplyHappens | src/roq/kucoin_futures/gateway/order_entry_rest.cpp:1085-1085 | For every setting there is a run that ends in a session stuck in GET_BALANCES after a lost reply |
| RecoveryToken.QueryEmptyIffRefreshing | src/roq/kucoin_futures/gateway/drop_copy.cpp:573-581 | In every run the query is empty if and only if the latest token event is a refresh request |
| RecoveryToken.RefreshesAlternate | src/roq/kucoin_futures/gateway/drop_copy.cpp:573-581 | In every run two refresh requests have an accepted token and a resume of the connection between them, directly after the first, however often the expiry error repeats |
| RecoveryToken.DeliveryEndsRefresh | src/roq/kucoin_futures/gateway/drop_copy.cpp:180-187 | A token delivered during a refresh is accepted, resumes the connection and ends the refresh |
| RecoveryToken.FailedRefreshIsFinal | src/roq/kucoin_futures/gateway/drop_copy.cpp:573-581 | Once a refresh has no pending request and no reply under way, no continuation refreshes again or gets a token |
| RecoveryToken.CanRefreshIff | src/roq/kucoin_futures/gateway/drop_copy.cpp:573-581 | In every run, while a refresh is outstanding some continuation brings a token if and only if the request is still wanted or a reply is under way |
| RecoveryToken.AnswerWithoutTokenIff | src/roq/kucoin_futures/gateway/order_entry_rest.cpp:296-320 | In every run, after an answer without a token the refresh can still succeed if and only if the request is wanted again or another reply is under way |
| RecoveryReplies.TokenReplyEffect | src/roq/kucoin_futures/gateway/order_entry_rest.cpp:296-340 | A token response ends the process if and only if it is a redirection, or a success or client error whose body is refused, has no servers or no ping interval; every other response commits the slot |
| RecoveryReplies.GoodTokenEffect | src/roq/kucoin_futures/gateway/order_entry_rest.cpp:322-340 | A success or client error with any other body delivers it: the drop copy is created with its ping interval, or takes its query, and the initial download ends |
| RecoveryReplies.NoTokenEffect | src/roq/kucoin_futures/gateway/order_entry_rest.cpp:1103-1138 | Any other response leaves drop copy, query, tokens and the initial download as they are |
| RecoveryHistory.IntervalAndQuery | src/roq/kucoin_futures/gateway/controller.cpp:236-251 | In every run there is a drop copy if and only if a good token was delivered; its ping interval is that of the first one, its query is empty or ?token= and the text of the latest one |
| RecoveryScenario.RefreshFailsIff | src/roq/kucoin_futures/gateway/drop_copy.cpp:316-327 | There is a run in which a refresh fails for good if and only if the settings let one be requested: the expired-token error does not crash, or an expiry is simulated |
| RecoveryHistory.DropCopyPings | src/roq/kucoin_futures/gateway/drop_copy.cpp:116-124 | In every run the pings of a session are those that its ticks since the welcome ask for at the ping interval f of the first token: more than f / 2 apart, at most f / 2 + d for ticks at most d apart, below f when d < f / 2; the logon timeout counts from the connection |
| RecoveryGateway.Gateway.Guarantees | src/roq/kucoin_futures/gateway/drop_copy.cpp:116-348 | Whatever the events so far, the objects have: counter equal to queries unanswered, a non-empty stale set wanted, READY only after the milestones (those of stale orders if the session found any), an empty query exactly during a refresh and otherwise that of the latest token, punctual pings at the interval of the first token |
| RecoveryGateway.Gateway.DropConnected | src/roq/kucoin_futures/gateway/drop_copy.cpp:191-199 | From any state that a run reaches the asserted absence of a logon timeout holds, and the objects go on as the run does |
| RecoveryGateway.Gateway.DropWelcome | src/roq/kucoin_futures/gateway/drop_copy.cpp:293-312 | From any state that a run reaches the download starts with a drop copy that is not ready, as asserted at DONE |
| RecoveryGateway.Gateway.DropTimer | src/roq/kucoin_futures/gateway/drop_copy.cpp:116-141 | From any state that a run reaches a socket that is not open is not welcomed and a ping has a positive interval, as asserted |
| RecoveryGateway.Gateway.TokenReply | src/roq/kucoin_futures/gateway/controller.cpp:236-251 | The token reaches the drop copy, which the first one creates, before the slot commits; the objects go on as the run does |
| RecoveryGateway.Gateway.OrderReply | src/roq/kucoin_futures/gateway/order_entry_rest.cpp:613-679 | From any state that a run reaches an answer never finds the counter at zero |
| RecoveryActors.Request.Ask | src/roq/kucoin_futures/gateway/request.hpp:25-33 | Asks in one slot and leaves the other five and the stale-order set unchanged |
| RecoveryActors.Request.HasResponse | src/roq/kucoin_futures/gateway/request.hpp:25-33 | Returns the response of one slot and clears it, nothing else |
| RecoveryActors.Request.TakePending | src/roq/kucoin_futures/gateway/request.hpp:25-33 | Fires exactly if the slot is wanted and admitted, and then clears wanted |
| RecoveryActors.Request.Commit | src/roq/kucoin_futures/gateway/request.hpp:25-33 | Sets the response of one slot, nothing else |
| RecoveryActors.DropCopy.Download | src/roq/kucoin_futures/gateway/drop_copy.cpp:245-301 | The callback for each stage: what it publishes, subscribes and asks for, and how many checks it waits for |
| RecoveryActors.DropCopy.CheckDownload | src/roq/kucoin_futures/gateway/drop_copy.cpp:336-348 | A check counts for the current stage only, and the last one enters the following stages up to the next that waits |
| RecoveryActors.DropCopy.FindStaleOrders | src/roq/kucoin_futures/gateway/drop_copy.cpp:655-679 | The set becomes its union with the reported orders; the result is true if and only if the set grew |
| RecoveryActors.DropCopy.FindStaleOrdersPeriodically | src/roq/kucoin_futures/gateway/drop_copy.cpp:681-688 | Scans if and only if the period has passed, and then moves the schedule on and adds all reported orders; the slot is asked for if and only if the set grew |
| RecoveryActors.DropCopy.ServeRequestQueue | src/roq/kucoin_futures/gateway/drop_copy.cpp:609-653 | Consumes the response of the current stage only; with the response to the open orders all reported orders are added before the stage is left; faults if and only if the stale-orders response finds a non-empty set |
| RecoveryActors.DropCopy.Timer | src/roq/kucoin_futures/gateway/drop_copy.cpp:116-141 | Ping, request queue and periodic scan when open, close after the logon timeout otherwise, then the token response and the simulated expiry |
| RecoveryActors.OrderEntryREST.QueryStaleOrders | src/roq/kucoin_futures/gateway/order_entry_rest.cpp:1088-1099 | Over the whole set: one query and one count per known order, one report per unknown order, and the set is empty afterwards |
| RecoveryActors.OrderEntryREST.Timer | src/roq/kucoin_futures/gateway/order_entry_rest.cpp:132-139 | When ready, each admitted wanted slot sends its request once, in the order of the slots |
| RecoveryActors.OrderEntryREST.GetPrivateTokenAck | src/roq/kucoin_futures/gateway/order_entry_rest.cpp:296-340 | Delivers exactly the accepted body with servers and a ping interval of a success or client error; the fault by the response; commits the slot for every outcome that is not fatal |
| RecoveryActors.OrderEntryREST.SlotAck | src/roq/kucoin_futures/gateway/order_entry_rest.cpp:364-382 | Faults if and only if the response is a redirection, and the slot has its response otherwise |
| RecoveryActors.OrderEntryREST.GetOrderAck | src/roq/kucoin_futures/gateway/order_entry_rest.cpp:613-679 | Counts the answer for every outcome that is not fatal; rejects the order if and only if the response is a success or client error that says the order is unknown |
| RecoveryActors.OrderEntryREST.CountAnswer | src/roq/kucoin_futures/gateway/order_entry_rest.cpp:669-677 | Decrements, faults at zero, and commits exactly when the counter goes from 1 to 0 |
| RecoveryActors.Controller.PrivateToken | src/roq/kucoin_futures/gateway/controller.cpp:236-251 | The first token creates the drop copy with its interval; later ones go to the same drop copy; either way its query is ?token= and the text of the token |
| Subscriptions.SubscribedExactlyOnce | src/roq/kucoin_futures/gateway/market_data.cpp:640-667 | In every run a welcomed stream has enqueued in its session, for each of the six topics, exactly its current slice, in order, and nothing else |
| Subscriptions.EverySymbolOnce | src/roq/kucoin_futures/gateway/controller.cpp:225-232 | Once all streams are welcomed they have together subscribed every known symbol to every topic exactly once |
| Subscriptions.SymbolListInvariant | src/roq/kucoin_futures/gateway/controller.cpp:255-265 | In every run the list has no duplicates and the elements of the known set, stream i has index i, and there is one stream per slice |
| Subscriptions.StreamIdsDistinctIff | src/roq/kucoin_futures/gateway/controller.cpp:98-104 | In every run the issued stream ids are distinct if and only if there are at most 2^16 |
| Subscriptions.SubscriptionIdsDistinct | src/roq/kucoin_futures/gateway/market_data.cpp:652-667 | Subscription ids never collide, within or across streams, while at most 2^16 stream ids were issued and each of the streams has sent at most a million messages |
| Subscriptions.MillionMessages | src/roq/kucoin_futures/gateway/market_data.cpp:640-667 | In every run a stream has sent at most 6 * max subscriptions * sessions messages, hence at most a million while that product is, and numbers them from a million times its id |
| Subscriptions.SubscriptionIdsCollideIff | src/roq/kucoin_futures/gateway/market_data.cpp:652-667 | In every run two streams share a subscription id if and only if the one with the lower (or equal) stream id has sent more than a million messages per step between the stream ids and the other has sent any |
| MarketHistory.PingsOfStream | src/roq/kucoin_futures/gateway/market_data.cpp:137-153 | In every run the pings of a stream are those its ticks since the welcome ask for, at the interval of the controller, within both bounds; the logon timeout is that of the connection, and none when down, as asserted on connect |
| Subscriptions.SymbolsAppend | src/roq/kucoin_futures/gateway/market_data.cpp:640-649 | Subscribing appends the symbols to each of the six topics and numbers the messages on |
| Subscriptions.SuffixKeeps | src/roq/kucoin_futures/gateway/market_data.cpp:205-209 | Subscribing the new suffix turns the old slice into the new one |
| Subscriptions.WelcomeKeeps | src/roq/kucoin_futures/gateway/market_data.cpp:262-271 | A welcome makes a session without messages hold exactly the slice, once per topic, numbered on |
| Subscriptions.DisconnectKeeps | src/roq/kucoin_futures/gateway/market_data.cpp:219-228 | After a disconnect the session holds nothing, ids go on, and a session has cost at most six messages per place of the slice |
| Symbols.SlicesPartition | src/roq/kucoin_futures/gateway/controller.cpp:225-232 | The slices in order are the list |
| Symbols.NewSymbolsKeepList | src/roq/kucoin_futures/gateway/controller.cpp:133-147 | Appending the new symbols keeps the list free of duplicates and equal to the known set |
| MarketHistory.KnownIff | src/roq/kucoin_futures/gateway/rest.cpp:321-394 | In every run a symbol is in the list if and only if a client asked for it or a contract download listed it and the dispatcher did not discard it |
| MarketHistory.ListOnlyGrows | src/roq/kucoin_futures/gateway/controller.cpp:225-232 | In every run the list only grows at its end, so every symbol keeps its position |
| MarketHistory.AppendsInOrder | src/roq/kucoin_futures/gateway/controller.cpp:133-147 | An event appends its new symbols in the order in which it first mentions them |
| MarketActors.MarketData.SubscribeTo | src/roq/kucoin_futures/gateway/market_data.cpp:652-667 | The loop enqueues one message per symbol, in order, with consecutive ids |
| MarketActors.MarketData.Timer | src/roq/kucoin_futures/gateway/market_data.cpp:137-153 | Pings when welcomed and due; closes exactly when not open after the logon timeout |
| MarketActors.Controller.CreateMissingStreams | src/roq/kucoin_futures/gateway/controller.cpp:255-265 | The loop creates streams with consecutive ids and indices up to the number of slices, and keeps the others |
| MarketActors.Controller.UpdateSymbols | src/roq/kucoin_futures/gateway/controller.cpp:225-232 | Appends, creates the missing streams, subscribes the suffix on every stream |
| MarketActors.Controller.ClientSubscribes | src/roq/kucoin_futures/gateway/controller.cpp:133-147 | Only symbols not known before are appended, in order, and what every run keeps is kept |
| MarketActors.Controller.StreamConnected | src/roq/kucoin_futures/gateway/market_data.cpp:213-217 | The asserted absence of a logon timeout holds, and what every run keeps is kept |
| MarketActors.Controller.StreamWelcomed | src/roq/kucoin_futures/gateway/market_data.cpp:262-271 | The session has enqueued exactly the slice of the stream for each topic, and what every run keeps is kept |
| MarketActors.Controller.StreamTimer | src/roq/kucoin_futures/gateway/market_data.cpp:137-153 | A stream that is not open is not welcomed, as asserted; the pings are within both bounds; closes exactly if not open after the logon timeout |
| MarketActors.AddSymbols | src/roq/kucoin_futures/gateway/controller.cpp:133-142 | The loop inserts all items and returns the new ones in order |
| MarketActors.Rest.ContractsDownloaded | src/roq/kucoin_futures/gateway/rest.cpp:321-394 | Discarded contracts are skipped, known ones are not appended, and without new ones there is no update |
| Ping.PingsAreSpaced | src/roq/kucoin_futures/gateway/market_data.cpp:669-679 | For every sequence of ready ticks consecutive pings are more than half an interval apart |
| Ping.PingsInWindow | src/roq/kucoin_futures/gateway/market_data.cpp:669-679 | Pings i to j of any spaced sequence span at least (j - i) * (gap + 1), hence k pings of a run in a window of length T satisfy (k - 1) * (f / 2 + 1) <= T |
| Ping.PingsAreFrequent | src/roq/kucoin_futures/gateway/market_data.cpp:137-153 | With ticks at most d apart, pings are at most f / 2 + d apart and the last is at most f / 2 old at the last tick |
| Ping.PingsArePunctual | src/roq/kucoin_futures/gateway/market_data.cpp:137-153 | Both bounds at once, for every tick distance d, and no gap as long as f when d < f / 2 |
| OrderEntryWs.PingsOfRun | src/roq/kucoin_futures/gateway/order_entry_ws.cpp:114-129 | In every run: a welcomed socket has the positive interval of its welcome, the logon timeout counts from the connection and is none when down, and the pings are those its ticks since the welcome ask for, within both bounds |
| OrderEntryWs.OrderEntryWS.OnConnected | src/roq/kucoin_futures/gateway/order_entry_ws.cpp:207-211 | From any state that a run reaches the asserted absence of a logon timeout holds, and the timeout is set from the time of the connection |
| OrderEntryWs.OrderEntryWS.OnTimer | src/roq/kucoin_futures/gateway/order_entry_ws.cpp:114-129 | From any state that a run reaches a socket that is not open is not welcomed and a ping has a positive interval, as asserted; the pings are within both bounds; closes exactly after the logon timeout |
| Throttle.StateIsClosedForm | src/roq/kucoin_futures/tools/throttle.cpp:110-132 | For every history with a clock that never goes back: last 403 plus ten minutes if there is one, else first 429 plus five seconds if there is one, else zero |
| Throttle.NeverDecreases | src/roq/kucoin_futures/tools/throttle.cpp:110-132 | The suspension never moves back, for any history and clock |
| Throttle.OnlyBlockedExtends | src/roq/kucoin_futures/tools/throttle.cpp:115-129 | After any 403 or 429, nothing but a 403 changes the suspension |
| Throttle.RateLimitedBacksOffIff | src/roq/kucoin_futures/tools/throttle.cpp:115-129 | For every history a 429 leaves at least five seconds of suspension if and only if there was no 403 or 429 before or the suspension already reaches that far |
| Throttle.SecondBackOffIsMissed | src/roq/kucoin_futures/tools/throttle.cpp:115-129 | Of two 429 more than five seconds apart the second leaves nothing suspended |
| Throttle.ZeroMeansNone | src/roq/kucoin_futures/tools/throttle.cpp:115-129 | The state is zero if and only if there was neither a 403 nor a 429 |
| Throttle.Throttle.MessageEnd | src/roq/kucoin_futures/tools/throttle.cpp:110-132 | The field stays the state of the history when enabled, and zero when not |
| Json.ReadsBackIffClean | src/roq/kucoin_futures/protocol/json/encoder.cpp:32-44 | For every value, its text as the encoder writes it (sections 3, 4 and 7 of RFC 8259) reads back as that value if and only if no string holds a quote, backslash or control character |
| Json.CharsReadBack | src/roq/kucoin_futures/protocol/json/encoder.cpp:34-44 | A copied string reads back if and only if it is clean, and then ends at its own closing quote |
| Decimal.FormatReads | src/roq/kucoin_futures/protocol/json/encoder.cpp:71-72 | A formatted number reads back, with its precision |
| Encoder.AddOrder | src/roq/kucoin_futures/protocol/json/encoder.cpp:17-78 | Whatever was in it, the buffer ends up as the text of the object with the members of the order |
| Encoder.AppendDetails | src/roq/kucoin_futures/protocol/json/encoder.cpp:48-77 | Appends the members of a market or a limit order and closes the object |
| Encoder.WsAddOrder | src/roq/kucoin_futures/protocol/json/encoder.cpp:82-100 | The buffer ends up as the text of an operation with that same object as arguments |
| Encoder.WsCancelOrder | src/roq/kucoin_futures/protocol/json/encoder.cpp:102-124 | The buffer ends up as the text of a cancel operation |
| WireText.OrderText | src/roq/kucoin_futures/protocol/json/encoder.cpp:17-78 | For every order, whatever its strings: the text is exactly the fields clientOid, symbol, side, marginMode, type, postOnly if asked for, and those of a market or limit order, each with its text on the wire, separated by commas, in braces |
| WireText.OperationText | src/roq/kucoin_futures/protocol/json/encoder.cpp:82-100 | The text of an operation is exactly its id, its name and the text of its arguments |
| WireText.CancelText | src/roq/kucoin_futures/protocol/json/encoder.cpp:102-124 | The arguments of a cancel are exactly symbol and clientOid |
| EncoderRoundTrip.MembersDecode | src/roq/kucoin_futures/protocol/json/encoder.cpp:17-78 | For every order with a type, looking up the members by name gives the requested fields: default margin mode if and only if unset, post-only if and only if asked for, price and time in force if and only if LIMIT |
| EncoderRoundTrip.OrderRoundTrip | src/roq/kucoin_futures/protocol/json/encoder.cpp:17-78 | The text reads back if and only if request id and symbol are clean, and then decodes to the requested fields |
| EncoderRoundTrip.OperationRoundTrip | src/roq/kucoin_futures/protocol/json/encoder.cpp:82-100 | The same for the arguments of the websocket form, whose id is the client order id |
| EncoderRoundTrip.CancelRoundTrip | src/roq/kucoin_futures/protocol/json/encoder.cpp:102-124 | A cancel reads back if and only if its three strings are clean, and names the order |
| Level2.CutIff | src/roq/kucoin_futures/tools/splitter.cpp:25-37 | Cutting gives three parts if and only if the text is their join and the first two hold no comma |
| Level2.CutFailsIff | src/roq/kucoin_futures/tools/splitter.cpp:25-37 | The default is returned if and only if there are fewer than two commas |
| Level2.ChangeRoundTrip | src/roq/kucoin_futures/gateway/market_data.cpp:451-474 | A change of two numbers on a side that is set comes back as these numbers, on that side only |
| Level2.SidesIff | src/roq/kucoin_futures/gateway/market_data.cpp:451-474 | A change cut into three parts updates the bids if and only if its side says buy and the asks if and only if it says sell; one with fewer than two commas updates neither |
| Level2.TopicRoundTrip | src/roq/kucoin_futures/protocol/json/utils.hpp:69-72 | The symbol of a subscribed topic comes back if and only if it holds no colon |
| Level2.StripIsIdempotent | src/roq/kucoin_futures/protocol/json/utils.hpp:69-72 | Stripping twice is stripping once |
| OrderState.PushAndPollAgreeIff | src/roq/kucoin_futures/gateway/drop_copy.cpp:459-511 | For every history, status, remaining and traded from the latest push equal those from the record if and only if it is not a cancel that finds everything traded |
| OrderState.StatusOfHistory | src/roq/kucoin_futures/protocol/json/map.cpp:78-93 | For every history: WORKING exactly while something remains and there is no cancel, then COMPLETED if all was traded and CANCELED if not (the push says CANCELED after any cancel); the rest is what was not traded, and none once terminal |
| OrderState.DisagreementHappens | src/roq/kucoin_futures/gateway/drop_copy.cpp:465-473 | There is a history of the modelled exchange in which a cancel follows the last match and the two disagree |
| OrderState.TerminalIffNothingRemains | src/roq/kucoin_futures/gateway/order_entry_rest.cpp:681-726 | Both normalisations publish a terminal status if and only if nothing remains |
| OrderState.FillsAddUp | src/roq/kucoin_futures/gateway/drop_copy.cpp:523-562 | One fill per match, and the fills sum to the traded quantity last published |
| OrderState.TerminalStatusStays | src/roq/kucoin_futures/gateway/drop_copy.cpp:463-485 | A terminal status is never left, and stays the same status except exactly for a cancel that finds everything traded |

## Left out

- RecoveryReady.ReadyMeansDownloaded: a commit follows the session's own request, but may answer an earlier session's; RecoveryEarlyCommit.EarlyCommitIff says exactly when that can come before the own request is sent.
- Encoder.WsAddOrder: the source formats from a view of the buffer that it then overwrites; the model copies the text first.
- RecoveryActors.OrderEntryREST.GetOrder: the path and query of the request are not modelled, only that it is sent.
- Eventual completion of the download, which needs fairness.
- The internals of the libraries behind the contracts above; `Request::ready` and `Request::can_request` are called by them only, the latter appears as the arbitrary admission per slot.
- The effect of suspending and resuming a connection; a disconnect is an event that may follow or not.
- What the REST acknowledgements publish (balances, positions, orders, fills); an acknowledgement is modelled by the category of its response and whether its body decodes and is accepted.
- The queue of subscription messages already enqueued and the rate at which it is sent, across reconnects included; subscriptions are stated when they are enqueued.
- The market-by-price sequencer, of which only the calls are visible, and the numbers of a level 2 change that are not numbers.
- JSON numbers, arrays and escaped surrogate pairs in the reader; the encoder writes none, and texts with them are refused.
- The text of undefined enumeration values, which comes from generated code: a parameter, assumed clean and different from the defined texts.
- Floating point: quantities and prices are fixed-point integers in units of their precision, so rounding, NaN and infinite values do not occur.
- Integer width of nanosecond clocks and of the counter of order queries; stream ids are 16 bits wide as in the source.
- Order history with amendments, and updates for orders that the gateway does not know.
- Response headers in the throttle: they are stored but do not change the suspension.
- Request signing, URL encoding, decoding of exchange messages, flags, metrics, logging and latency records.

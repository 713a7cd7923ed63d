# A verified model of the Bybit gateway

The gateway connects trading clients to the Bybit exchange. It downloads instruments and accepts client
subscriptions, spreads the symbols over WebSocket streams, keeps one private stream and one or two order entry
streams per account, and passes what the exchange sends to a dispatcher. This project models the parts of it that
are state machines, loops, printers and readers, and proves what holds in every run of them.

The classes follow the objects of the program: they have their fields, their methods update those fields in place,
and each method is proved against a specification function on values. The lemmas prove properties of those
functions, of arbitrary lists of events, and of the texts that are written.

- **Symbols and subscriptions** (`Symbols`, `MarketData`, `WireArguments`, `Controller`, `Gateway`, `GatewaySafety`,
  `GatewayWitnesses`). Two producers
  feed one set of known symbols; the controller cuts the symbols into slices and creates a stream per slice; each
  stream subscribes its slice when it becomes ready and new symbols as they come. `Gateway` is the whole as a state
  machine over any interleaving of symbol batches, stream events and account events; `Controller` takes its steps
  object by object.
- **Downloads per account** (`DropCopy`, `AccountRuns`, `AccountSafety`). The private stream fills a queue of download requests that
  the REST order stream drains, and that two streams may clear.
- **Grouping** (`Runs`, `Executions`, `SharedFills`, `PublicTrades`). Flat lists are cut into maximal runs of equal
  key through buffers that several streams share.
- **Throttle** (`Throttle`). Three response headers and the final HTTP status drive the gate that holds back requests.
- **Wire text** (`Text`, `Json`, `Orders`, `Encoder`, `OrderReader`, `Topics`). The order encoders are compared with
  an independent reader of JSON text; the subscription messages with the topic reader and the dispatch cascade.
- **Requests and responses** (`OrderEntry`, `Correlation`, `OrderEntryWs`). Pipelined REST order actions whose
  callbacks capture user, order and version, and WebSocket order actions that are tied to their answers by a
  request id only.

## What the proofs found

Some properties one would expect do not hold of the code. The model keeps the code as it is; for each the exact
condition under which the property holds is proved, and for most there is a concrete run in which it fails.

- A ready stream's messages ask for exactly its slice on every topic, except in three cases, in which they do not:
  with depth 1 on spot, both order book subscriptions are the same topic and every symbol is asked for twice; a kline
  message asks for `kline.<interval>.<symbol>` only for its first symbol; and a symbol with a quote or a backslash is
  not escaped, so that no topic is read with it (`GatewaySafety.SubscriptionExactness`,
  `GatewayWitnesses.DepthOneSubscribesTwice`, `Topics.KlineIntended`, `GatewayWitnesses.KlineWithoutInterval`,
  `GatewayWitnesses.QuoteIsNotRead`).
- An exception of the dispatcher inside the instrument loop leaves symbols inserted that no later download delivers.
  The delivered batches are all known symbols exactly when no download was cut short after it inserted a new one
  (`GatewaySafety.SymbolRegistry`, `GatewayWitnesses.SymbolNeverDelivered`).
- The fills buffer is not cleared on entry. A dispatch that throws in the REST handler is caught and logged, and the
  fills left behind are then reported under whatever account comes next (`SharedFills.LeftoverFillsAreMisattributed`,
  `SharedFills.FillUnderAnotherAccount`). The first update of a list that starts with an empty order id has a blank
  header, because that id is not a change (`SharedFills.ExecutionGrouping`).
- The assertion in the public trade handler fails when an item has no symbol, and only then
  (`PublicTrades.TradeHandler.OnPublicTrade`).
- A WebSocket order entry disconnect clears download requests of a private session that goes on. Requests are lost
  exactly when it happens while some are pending, until the private stream itself disconnects
  (`AccountSafety.LostExactly`, `GatewayWitnesses.DownloadLostByTradeStream`).
- The ten minutes after a 403 end with the next response that reports quota, and only such a header can
  end them (`Throttle.BackoffHolds`, `Throttle.BlockLiftedByQuota`).
- A reset time processed after a negative status can open the gate earlier than the other order
  (`Throttle.HeaderOrder`, `Throttle.StatusFirstOpensEarlier`).
- An accepted order is also reported as failed when the dispatcher throws at the acceptance
  (`Correlation.CompletionAnswers`, `Correlation.AcceptedThenFailed`). A cancel-all is reported as accepted whatever
  its return code (`Correlation.AcceptedExactlyWhenAcknowledged`).
- A time in force the exchange does not know is sent as an empty one (`Orders.TimeInForceSurvives`).

## Model

| member | source | states |
|---|---|---|
| Throttle.Throttler.UpdateGate | src/roq/bybit/tools/throttle.cpp:78-96 | recomputing the gate opens it when quota is left or no reset time is known, and otherwise only ever moves it later |
| Throttle.Throttler.OnMessageHeader | src/roq/bybit/tools/throttle.cpp:71-114 | a recognised header replaces its value, and the gate is recomputed only when a status or reset time changed |
| Throttle.Throttler.OnMessageEnd | src/roq/bybit/tools/throttle.cpp:116-139 | a 403 closes the gate for at least ten minutes, a 429 closes an open gate for five seconds, nothing else happens |
| Throttle.HeadersAreStored | src/roq/bybit/tools/throttle.cpp:71-114 | a header replaces the parameter it names, whatever the case of its spelling, and no other |
| Throttle.HeaderMovesGate | src/roq/bybit/tools/throttle.cpp:78-114 | a header that changes the status or the reset time opens the gate when quota is left or no reset time is known, and otherwise moves it to the reset time in milliseconds, or five seconds on when that has passed, never earlier; no other header moves it |
| Throttle.StatusMovesGate | src/roq/bybit/tools/throttle.cpp:116-139 | a 403 moves the gate to ten minutes on or leaves it later, a 429 moves an open gate to exactly five seconds on, and a 429 on a closed gate, any other status or a disabled throttle change nothing |
| Throttle.OpenUntilTold | src/roq/bybit/tools/throttle.cpp:62-63 | a new throttle is open and knows no limits until a header or a status that it knows |
| Throttle.GateCoversResetTime | src/roq/bybit/tools/throttle.cpp:71-139 | in every reachable state without quota the gate covers the end of the window, translated by the clock offset, and a disabled gate is always open |
| Throttle.RunKeepsSafe | src/roq/bybit/tools/throttle.cpp:71-139 | the bound is kept by every run of headers and final statuses, from any state in which it holds |
| Throttle.GateNotBeyondResetTime | src/roq/bybit/tools/throttle.cpp:78-139 | without a 403 the gate is never later than the latest reset time seen or one default backoff after the latest event |
| Throttle.GateDropsExactlyWhenCleared | src/roq/bybit/tools/throttle.cpp:78-139 | one event lowers a closed gate if and only if it is a header that changes a value and leaves quota or no reset time, and then the gate is zero |
| Throttle.GateHoldsUntilCleared | src/roq/bybit/tools/throttle.cpp:78-139 | over a run, the gate falls below any level it had reached if and only if some event clears it |
| Throttle.BackoffHolds | src/roq/bybit/tools/throttle.cpp:116-139 | the gate stays beyond ten minutes after a 403, beyond five seconds after a 429 on an open gate, and where it was after a 429 on a closed one, if and only if no header clears it |
| Throttle.BlockLiftedByQuota | src/roq/bybit/tools/throttle.cpp:71-139 | the ten minutes of a 403 are lifted by the next header that reports quota |
| Throttle.HeaderOrder | src/roq/bybit/tools/throttle.cpp:73-114 | both orders of the two headers end with the same parameters and a gate beyond the deadline; the exact states in which status first opens earlier |
| Throttle.StatusFirstOpensEarlier | src/roq/bybit/tools/throttle.cpp:73-114 | one such state |
| Orders.NumberRoundTrip | src/roq/bybit/protocol/json/encoder.cpp:46-50 | a printed price or quantity gives back its units and its precision |
| Text.ReadPrintDecimal | src/roq/bybit/protocol/json/encoder.cpp:46-50 | a scaled integer printed with a fixed number of fraction digits is read back exactly, for all integers and precisions |
| Encoder.PlaceOrder | src/roq/bybit/protocol/json/encoder.cpp:20-58 | whatever the buffer held, it then holds the text of one JSON object with these fields in this order, the price only when there is one |
| Encoder.AmendOrder | src/roq/bybit/protocol/json/encoder.cpp:60-96 | the same for an amendment: price and quantity only when present, and the exchange's id or else the given link id |
| Encoder.CancelOrder | src/roq/bybit/protocol/json/encoder.cpp:98-128 | the same for a cancellation |
| Encoder.CancelAllOrders | src/roq/bybit/protocol/json/encoder.cpp:130-142 | the same for one symbol of a cancel-all |
| Encoder.PlaceOrderWs | src/roq/bybit/protocol/json/encoder.cpp:146-198 | the WebSocket message is a prefix, byte for byte the REST body, and a suffix with the request id |
| Encoder.AmendOrderWs | src/roq/bybit/protocol/json/encoder.cpp:200-246 | the same for an amendment |
| Encoder.CancelOrderWs | src/roq/bybit/protocol/json/encoder.cpp:248-288 | the same for a cancellation |
| Encoder.EnvelopeText | src/roq/bybit/protocol/json/encoder.cpp:160-196 | prefix, body and suffix together are the text of one JSON tree whose args array holds the body alone |
| OrderReader.PlaceRoundTrip | src/roq/bybit/protocol/json/encoder.cpp:20-58 | a reader by key recovers every field of a new order if and only if symbol and id hold no quote or backslash |
| OrderReader.PlaceInjective | src/roq/bybit/protocol/json/encoder.cpp:20-58 | two new orders have the same bytes if and only if they ask for the same thing |
| OrderReader.AmendRoundTrip | src/roq/bybit/protocol/json/encoder.cpp:60-96 | the round trip for amendments, if and only if the symbol and the id that is written are clean |
| OrderReader.AmendInjective | src/roq/bybit/protocol/json/encoder.cpp:60-96 | distinct amendments give distinct bytes |
| OrderReader.CancelRoundTrip | src/roq/bybit/protocol/json/encoder.cpp:98-128 | the round trip for cancellations |
| OrderReader.CancelInjective | src/roq/bybit/protocol/json/encoder.cpp:98-128 | distinct cancellations give distinct bytes |
| OrderReader.CancelAllRoundTrip | src/roq/bybit/protocol/json/encoder.cpp:130-142 | category and symbol of a cancel-all are recovered if and only if the symbol is clean |
| OrderReader.CancelAllInjective | src/roq/bybit/protocol/json/encoder.cpp:130-142 | distinct symbols or categories give distinct bytes |
| OrderReader.EnvelopeReads | src/roq/bybit/protocol/json/encoder.cpp:146-288 | a WebSocket message reads as its operation, its timestamp and window, its request id and one argument, the tree the REST body reads as |
| Topics.FormatSubscribe | src/roq/bybit/gateway/market_data.cpp:578-591 | the text built with a joined separator is the text of a JSON tree with one argument per symbol |
| Topics.FormatSubscribeKline | src/roq/bybit/gateway/market_data.cpp:593-606 | the exact expansion of the kline message, with the interval in the first argument only |
| Topics.FormatSubscribePrivate | src/roq/bybit/gateway/drop_copy.cpp:516-526 | a private subscription names one topic, which is also its request id |
| Topics.SubscribeReads | src/roq/bybit/gateway/market_data.cpp:578-591 | a message reads as a subscription, by its operation, to its arguments in order under its request id, if and only if no argument holds a quote or a backslash |
| Topics.ClosedLoop | src/roq/bybit/gateway/market_data.cpp:578-591 | the arguments read are topic and symbol for each symbol in order if and only if no symbol holds a quote or a backslash, and a push on any of these topics reaches the handler of its topic, whatever the symbol |
| Topics.DepthBetweenDots | src/roq/bybit/protocol/json/parser.cpp:35-41 | the depth printed between the dots is read back if and only if it fits 32 bits |
| Topics.PushReachesHandler | src/roq/bybit/protocol/json/parser.cpp:31-85 | a push on a subscribed topic is never fatal and reaches its own handler, told the depth that was printed, for every 32-bit depth and any dots in the symbol |
| Topics.FatalExactly | src/roq/bybit/protocol/json/parser.cpp:49-140 | when the parser's own fatal branch is reached, and when it leaves a message unhandled; messages routed to a handler that ends the process are the next two rows |
| Topics.PublicStreamSurvives | src/roq/bybit/gateway/market_data.cpp:257-275 | the exact condition on topic, operation, type and tolerance under which a message does not end the process on the public stream |
| Topics.PrivateStreamSurvives | src/roq/bybit/gateway/drop_copy.cpp:246-305 | the same for the private stream |
| Topics.PrivatePushReachesHandler | src/roq/bybit/protocol/json/parser.cpp:49-85 | the same for private topics, which the public stream would not survive |
| Topics.PrivateClosedLoop | src/roq/bybit/gateway/drop_copy.cpp:516-526 | a private message reads as a subscription to its one topic, which is also its request id, and a push on it reaches the handler of the topic |
| Topics.HandlerExactly | src/roq/bybit/protocol/json/parser.cpp:49-140 | for each handler, the exact messages that reach it: a known topic decides, else the operation, else the type |
| Topics.KlineIntended | src/roq/bybit/gateway/market_data.cpp:593-606 | the kline message has its intended form if and only if it names one symbol |
| Topics.KlineReads | src/roq/bybit/gateway/market_data.cpp:593-606 | its bytes read as the expansion, if and only if no symbol holds a quote or a backslash, and each of its topics still reaches the kline handler |
| Runs.MaximalIsUnique | src/roq/bybit/gateway/drop_copy.cpp:454-485 | a list has only one partition into maximal runs of equal key |
| Runs.RunsOfIsMaximal | src/roq/bybit/gateway/drop_copy.cpp:454-485 | the reference partition is maximal and flattens to the list |
| Executions.ExecutionHandler.Flush | src/roq/bybit/gateway/drop_copy.cpp:425-453 | the flushing closure emits what is in the buffer under the current header and empties it, or leaves it when the dispatcher throws |
| Executions.ExecutionHandler.OnExecutions | src/roq/bybit/gateway/order_entry_rest.cpp:708-777 | for any content of the shared buffer and any throwing dispatch, the updates emitted are those of the maximal runs of found and new fills, up to the throw |
| SharedFills.FillsConserved | src/roq/bybit/gateway/order_entry_rest.cpp:708-777 | the updates of one call carry what was found in the buffer and then the call's own fills, in order |
| SharedFills.QuantityConserved | src/roq/bybit/gateway/drop_copy.cpp:470-485 | the total quantity reported is what was found in the buffer and what the exchange executed |
| SharedFills.FieldsConserved | src/roq/bybit/gateway/order_entry_rest.cpp:758-775 | every fill carries the id, quantity, price, fee, fee currency and liquidity of its execution, and its time if and only if it was downloaded |
| SharedFills.HeaderFields | src/roq/bybit/gateway/drop_copy.cpp:460-466 | every header is made of the order id, link id, symbol, side and time of its run's first item, but for the blank first one |
| SharedFills.ExecutionGrouping | src/roq/bybit/gateway/drop_copy.cpp:415-487 | one update per maximal run of an order id, none empty; every header is that of its run's first item if and only if the list does not start with an empty order id |
| SharedFills.HandleCall | src/roq/bybit/gateway/drop_copy.cpp:415-487 | one handler call takes one step of the interleaving, and a private stream's call that throws is the last |
| SharedFills.BufferEmptyBetweenCalls | src/roq/bybit/gateway/shared.hpp:46-49 | while the process lives, the shared buffer holds something between two calls if and only if the earlier one was a REST call at which the dispatcher threw, and the process ends if and only if a private stream's call throws |
| SharedFills.CallsDoNotInterfere | src/roq/bybit/gateway/shared.hpp:46-49 | while no dispatch really throws, any interleaving of any accounts' calls emits exactly what each call would emit alone |
| SharedFills.LeftoverFillsAreMisattributed | src/roq/bybit/gateway/order_entry_rest.cpp:715-743 | over any run, a call, whether or not it throws, emits what was left in the buffer and then its own fills as far as it got; it emits only its own if and only if it emits nothing or the call before it was not a REST call at which the dispatcher threw |
| SharedFills.FillUnderAnotherAccount | src/roq/bybit/gateway/order_entry_rest.cpp:715-743 | a run of two calls in which that happens |
| PublicTrades.TradeHandler.Flush | src/roq/bybit/gateway/market_data.cpp:366-385 | the closure emits and empties the buffer, and when its assertion fails |
| PublicTrades.TradeHandler.OnPublicTrade | src/roq/bybit/gateway/market_data.cpp:358-407 | one summary per maximal run of a symbol with the latest time of its own run, whatever the buffer held; the assertion fails if and only if a symbol is empty |
| PublicTrades.TradeGrouping | src/roq/bybit/gateway/market_data.cpp:358-407 | that contract has one solution, conserves the trades in order with their id, side, price and quantity, and makes neighbours differ |
| Symbols.FreshBatch | src/roq/bybit/gateway/rest.cpp:314-316 | a delivered batch has no duplicates, nothing known, and completes what was seen |
| Symbols.Registry.OnSubscribe | src/roq/bybit/gateway/controller.cpp:141-150 | a client subscription inserts its symbols and delivers the new ones in order of first occurrence |
| Symbols.Registry.OnInstruments | src/roq/bybit/gateway/rest.cpp:259-328 | an instrument download inserts what is not discarded, delivers the new ones and publishes a status for each, up to the dispatch at which an exception leaves the loop |
| Symbols.KeptExactly | src/roq/bybit/gateway/rest.cpp:310-313 | a download keeps exactly the symbols of the items that are not discarded |
| Symbols.InsertedBeforeThrow | src/roq/bybit/gateway/rest.cpp:303-327 | without an exception everything kept is inserted and published; with one, both lists are cut short and at most one inserted symbol is not published |
| Symbols.ThrowPoints | src/roq/bybit/gateway/rest.cpp:303-327 | an exception at the reference data of an item leaves it out, one at its market status leaves it inserted and not published |
| Symbols.SliceGrows | src/roq/bybit/gateway/controller.cpp:226-230 | a slice grows by exactly the new symbols that fall into it |
| Symbols.ExactlyOneSlice | src/roq/bybit/gateway/controller.cpp:226-230 | every symbol is in exactly one slice, once |
| MarketData.MarketDataStream.constructor | src/roq/bybit/gateway/market_data.cpp:129-133 | a stream starts with its own range of request ids |
| MarketData.MarketDataStream.SubscribeTopic | src/roq/bybit/gateway/market_data.cpp:578-591 | one message under the next request id |
| MarketData.MarketDataStream.SubscribeSymbols | src/roq/bybit/gateway/market_data.cpp:563-576 | nothing for no symbols, else one message per topic in order |
| MarketData.MarketDataStream.SubscribeFrom | src/roq/bybit/gateway/market_data.cpp:209-213 | a ready stream subscribes the part of its slice from a position on |
| MarketData.MarketDataStream.Ready | src/roq/bybit/gateway/market_data.cpp:237-241 | a stream that becomes ready subscribes its whole slice |
| MarketData.MarketDataStream.Disconnected | src/roq/bybit/gateway/market_data.cpp:220-224 | a disconnect ends the session and nothing else |
| MarketData.SubscribeAdds | src/roq/bybit/gateway/market_data.cpp:563-576 | subscribing adds the symbols to a topic as often as the topic is subscribed |
| MarketData.TopicOccurrences | src/roq/bybit/gateway/market_data.cpp:563-576 | each topic is subscribed once, but the best bid and offer twice when the depth is 1 on spot |
| MarketData.TopicsExactly | src/roq/bybit/gateway/market_data.cpp:97-116 | which topics a stream has: trades and tickers, kline with a time series download, the configured depth or else 50, 25 for options, and depth 1 on spot |
| WireArguments.RequestIdIsRead | src/roq/bybit/gateway/market_data.cpp:578-591 | the request id read off a message is the number it was sent under |
| WireArguments.TopicIsRead | src/roq/bybit/gateway/market_data.cpp:578-591 | of all arguments read off a session's messages, those whose pushes reach the handler of a topic other than kline are that topic with each symbol subscribed on it, in order |
| WireArguments.KlineIsRead | src/roq/bybit/gateway/market_data.cpp:593-606 | for kline they are the intended ones if and only if every kline message names one symbol |
| WireArguments.UncleanIsNotRead | src/roq/bybit/gateway/market_data.cpp:578-606 | when one symbol holds a quote or a backslash, no topic is read with each symbol |
| DropCopy.DropCopyStream.SymbolUpdate | src/roq/bybit/gateway/drop_copy.cpp:107-120 | a tradable symbol is inserted and, when the connection is ready, its downloads are enqueued |
| DropCopy.DropCopyStream.SymbolsUpdate | src/roq/bybit/gateway/drop_copy.cpp:105-121 | the same for a batch |
| DropCopy.DropCopyStream.Opened | src/roq/bybit/gateway/drop_copy.cpp:141-143 | a connection that becomes ready, at any time before it reports so, starts a session without subscriptions |
| DropCopy.DropCopyStream.Ready | src/roq/bybit/gateway/drop_copy.cpp:224-228 | a connection that reports ready gets one login message, the status becomes login sent, and the session is the one it started when it became ready |
| DropCopy.DropCopyStream.Auth | src/roq/bybit/gateway/drop_copy.cpp:251-268 | a login changes the status to ready and subscribes the private topics, positions only off spot; a failed one closes the connection or ends the process |
| DropCopy.DropCopyStream.EnqueueSymbols | src/roq/bybit/gateway/drop_copy.cpp:276-279 | one request for each known symbol, each exactly once, in some order |
| DropCopy.DropCopyStream.SubscribeAck | src/roq/bybit/gateway/drop_copy.cpp:270-283 | an acknowledged topic is enqueued for every known symbol, the wallet once |
| DropCopy.DropCopyStream.Disconnected | src/roq/bybit/gateway/drop_copy.cpp:204-211 | a disconnect ends the session and clears the queue |
| DropCopy.OrderEntryStreams.Download | src/roq/bybit/gateway/order_entry_rest.cpp:1257-1268 | requests become the downloads of their topics in order, up to the first position download on spot, which is fatal |
| DropCopy.OrderEntryStreams.CheckRequestQueue | src/roq/bybit/gateway/order_entry_rest.cpp:1256-1272 | the queue is drained from the front, its requests become downloads up to a fatal one, and then the process ends |
| DropCopy.OrderEntryStreams.TradeDisconnected | src/roq/bybit/gateway/order_entry_ws.cpp:230-236 | the other order entry stream clears the queue of its account |
| AccountRuns.SymbolsKeep | src/roq/bybit/gateway/drop_copy.cpp:105-121 | a new batch keeps the account's symbol set, coverage and conservation, and the insertion assertion holds |
| AccountRuns.StepKeeps | src/roq/bybit/gateway/drop_copy.cpp:204-283 | so does every event of the account |
| AccountRuns.SymbolAskedOnce | src/roq/bybit/gateway/drop_copy.cpp:107-120 | a new tradable symbol of a ready account is asked for exactly once on each download topic, and on nothing else |
| AccountRuns.AssertionExactly | src/roq/bybit/gateway/drop_copy.cpp:111-112 | the insertion assertion fails if and only if a tradable symbol is already known |
| AccountRuns.AckAskedOnce | src/roq/bybit/gateway/drop_copy.cpp:270-283 | an acknowledged topic is asked for exactly once for each symbol, the wallet once, and nothing else |
| AccountRuns.ReadyAndTerminated | src/roq/bybit/gateway/drop_copy.cpp:204-268 | which events make the connection ready or not ready, and which end the process |
| AccountRuns.StatusFollows | src/roq/bybit/gateway/drop_copy.cpp:204-268 | a login is sent at each report of readiness, and the status follows the last report, login or disconnect |
| AccountRuns.SessionFollows | src/roq/bybit/gateway/drop_copy.cpp:204-283 | which events start a session, and what each adds to its subscriptions and acknowledgements |
| AccountRuns.CoveredRequestIsSomewhere | src/roq/bybit/gateway/drop_copy.cpp:270-283 | a download that was asked for, the wallet included, is dispatched, pending or cleared, and never cleared without the WebSocket API |
| AccountRuns.StepKeepsSound | src/roq/bybit/gateway/drop_copy.cpp:270-283 | only known symbols and known topics are ever asked for |
| AccountRuns.SoundRequestsAreDownloaded | src/roq/bybit/gateway/order_entry_rest.cpp:1256-1272 | whatever part of the queue is drained becomes one download per request, answering that request, in order |
| AccountRuns.LoginSubscribesDownloads | src/roq/bybit/gateway/drop_copy.cpp:507-514 | the topics subscribed after a login are the download topics and the wallet, each once |
| AccountRuns.StepKeepsNoPositions | src/roq/bybit/gateway/drop_copy.cpp:507-514 | on spot no event enqueues a position download while only subscribed topics are acknowledged |
| AccountRuns.StrayAckExactly | src/roq/bybit/gateway/drop_copy.cpp:270-283 | on spot an event enqueues a position download if and only if it acknowledges the position topic while a symbol is known |
| Controller.NumberFixedStreams | src/roq/bybit/gateway/controller.cpp:42-79 | the streams created with the controller take the first identifiers, each the next one, in the order instruments, REST orders, WebSocket orders, private |
| Controller.FixedStreamsCounted | src/roq/bybit/gateway/controller.cpp:106-111 | they are as many as the state machine counts before the first public stream |
| Controller.Controller.constructor | src/roq/bybit/gateway/controller.cpp:106-111 | the initial state, with the identifiers of the fixed streams taken |
| Controller.Controller.EnsureSymbolSlices | src/roq/bybit/gateway/controller.cpp:243-251 | the loop ends with at least as many streams as slices, the old ones untouched and the new ones numbered on |
| Controller.Controller.SubscribeStreams | src/roq/bybit/gateway/controller.cpp:228-230 | every stream, old or new, subscribes the new part of its own slice |
| Controller.Controller.UpdateAccounts | src/roq/bybit/gateway/controller.cpp:231-233 | every account sees the batch, whatever the order, and no stream changes |
| Controller.Controller.SymbolsUpdate | src/roq/bybit/gateway/controller.cpp:224-234 | a batch takes the objects from one state of the state machine to the state after its delivery |
| Controller.Controller.Subscribe | src/roq/bybit/gateway/controller.cpp:141-155 | a client subscription is one step of the state machine |
| Controller.Controller.Instruments | src/roq/bybit/gateway/rest.cpp:329-334 | an instrument download is one step, and delivers nothing when nothing is new or an exception left its loop |
| Gateway.DeliverKeepsStreams | src/roq/bybit/gateway/controller.cpp:224-230 | delivering a batch keeps every stream's session equal to its slice and creates exactly one stream per slice |
| Gateway.DeliverKeepsRegistered | src/roq/bybit/gateway/controller.cpp:141-155 | delivering a batch keeps the symbols distinct and equal to the set of all symbols |
| Gateway.DeliverKeepsAccounts | src/roq/bybit/gateway/controller.cpp:231-233 | delivering a batch keeps every account's invariant |
| Gateway.NextKeeps | src/roq/bybit/gateway/controller.cpp:224-251 | every event keeps the invariant of the whole gateway |
| Gateway.RunOk | src/roq/bybit/gateway/controller.cpp:224-251 | the invariant holds after every list of events |
| GatewaySafety.SymbolRegistry | src/roq/bybit/gateway/rest.cpp:303-334 | over any run, batches are duplicate-free and disjoint, no account inserts twice and each knows exactly its tradable part of them; their union is all symbols if and only if no download was cut short by an exception after inserting a new symbol |
| GatewayWitnesses.SymbolNeverDelivered | src/roq/bybit/gateway/rest.cpp:303-334 | a run in which a download is cut short and repeated, and a known symbol is in no slice |
| GatewaySafety.SubscriptionExactness | src/roq/bybit/gateway/market_data.cpp:209-241 | over any run, what is read off the messages of a ready stream's session is, for each of its topics, that topic with each symbol of the current slice, once and in order, if and only if the depth is not 1 on spot, every kline message names one symbol, and no symbol of the slice holds a quote or a backslash; the same for each topic alone; and what is read otherwise from a clean slice |
| GatewaySafety.NotReadySendsNothing | src/roq/bybit/gateway/market_data.cpp:209-213 | over any run, a stream that is not ready has sent nothing since it was |
| GatewayWitnesses.DepthOneSubscribesTwice | src/roq/bybit/gateway/market_data.cpp:563-570 | a run in which a symbol is asked for twice |
| GatewayWitnesses.KlineWithoutInterval | src/roq/bybit/gateway/market_data.cpp:593-606 | a run in which the second symbol is asked for without an interval |
| GatewayWitnesses.QuoteIsNotRead | src/roq/bybit/gateway/controller.cpp:141-155 | a run in which a client's symbol is never read on any topic |
| GatewaySafety.OneStreamPerSymbol | src/roq/bybit/gateway/controller.cpp:224-251 | over any run, a symbol belongs to a stream if and only if it was delivered, and then to exactly one |
| AccountSafety.DownloadCoverage | src/roq/bybit/gateway/drop_copy.cpp:105-121 | over any run, every acknowledged topic has been enqueued in this session for every symbol, whichever came first, the wallet likewise, and is dispatched or pending unless requests were lost |
| AccountSafety.PrivateSubscriptionsReach | src/roq/bybit/gateway/drop_copy.cpp:507-526 | each message sent after a login reads as a subscription to its topic, and a push on that topic is accepted |
| AccountSafety.QueueConservation | src/roq/bybit/gateway/drop_copy.cpp:204-211 | over any run, requests enqueued since the last clear are those dispatched and then those pending, in order, and whatever is drained becomes one download each |
| AccountSafety.LostExactly | src/roq/bybit/gateway/order_entry_ws.cpp:230-236 | over any run, requests of an account are lost if and only if the WebSocket order entry stream disconnected while some were pending and the private stream has not disconnected since |
| GatewayWitnesses.DownloadLostByTradeStream | src/roq/bybit/gateway/order_entry_ws.cpp:230-236 | a run in which a download is lost although its session goes on |
| AccountSafety.SpotNeverAsksPositions | src/roq/bybit/gateway/order_entry_rest.cpp:432-451 | over any run with an honest exchange, the position download's assertion and fatal branch are not reached on spot |
| GatewaySafety.StreamIdsDistinct | src/roq/bybit/gateway/controller.cpp:106-111 | stream identifiers are distinct if and only if they fit 16 bits |
| GatewaySafety.RequestIdsDistinct | src/roq/bybit/gateway/market_data.cpp:129-133 | over any run, request ids of a stream never repeat; two streams share one if and only if the higher has sent something and the lower more than a million messages per step between their identifiers, or, with equal identifiers, both have sent something |
| GatewaySafety.RequestIdsNeverRepeat | src/roq/bybit/gateway/controller.cpp:243-251 | while the identifiers fit 16 bits, streams have different ones, and no request id is repeated before some stream has sent more than a million messages |
| OrderEntry.OrderEntryRest.PlaceOrder | src/roq/bybit/gateway/order_entry_rest.cpp:781-807 | a new order is refused or sent with its own bytes and captures, whatever the shared buffer held |
| OrderEntry.OrderEntryRest.AmendOrder | src/roq/bybit/gateway/order_entry_rest.cpp:903-934 | the same for an amendment, which spot refuses before anything else |
| OrderEntry.OrderEntryRest.CancelOrder | src/roq/bybit/gateway/order_entry_rest.cpp:1029-1057 | the same for a cancellation |
| OrderEntry.OrderEntryRest.CancelAllOrders | src/roq/bybit/gateway/order_entry_rest.cpp:1152-1208 | one request and one acknowledgement for each symbol that passes the filter |
| OrderEntry.OrderEntryRest.Splitter | src/roq/bybit/gateway/order_entry_rest.cpp:1276-1311 | what the guarded part of the response handling answers or throws, by category and status |
| OrderEntry.OrderEntryRest.OnResponse | src/roq/bybit/gateway/order_entry_rest.cpp:1274-1323 | one completion takes its callback and emits the answers of the specification, and which exception escapes |
| Correlation.CompletionAnswers | src/roq/bybit/gateway/order_entry_rest.cpp:809-836 | all answers to a completion carry the captured identity; their number is two if and only if the dispatcher threw at a regular answer, and zero if and only if the process ends |
| Correlation.UncaughtExactly | src/roq/bybit/gateway/order_entry_rest.cpp:1311-1322 | what leaves the response handling is what the dispatcher throws at an answer to an exception |
| Correlation.ExceptionAnswered | src/roq/bybit/gateway/order_entry_rest.cpp:1311-1322 | each kind of exception, wherever it is thrown, is answered with its own origin, status, error and text, and without ids; for a cancel-all as a rejection |
| Correlation.ErrorAnswered | src/roq/bybit/gateway/order_entry_rest.cpp:1287-1310 | what a client or server error is answered with, by status |
| Correlation.AcknowledgementAnswered | src/roq/bybit/gateway/order_entry_rest.cpp:966-1025 | what an acknowledgement is answered with: its code and message, the exchange's order id, the ids of a new order, the quantities of another and what remains, or a bare acceptance of a cancel-all |
| Correlation.SentExactlyWhenReady | src/roq/bybit/gateway/order_entry_rest.cpp:903-915 | an order action is sent if and only if the connection is ready, and an amendment only off spot; how anything else is refused |
| Correlation.NothingBeforeReady | src/roq/bybit/gateway/order_entry_rest.cpp:784-786 | over any run, nothing is sent or answered before a status makes the connection ready |
| Correlation.NothingElseIsSent | src/roq/bybit/gateway/order_entry_rest.cpp:1152-1156 | a cancel-all sends nothing while not ready, and completions never send |
| Correlation.RequestCorrelation | src/roq/bybit/gateway/order_entry_rest.cpp:1274-1323 | over any interleaving, requests in flight have no answer and completed ones exactly those of their own completion under their own type, user, order and version |
| Correlation.RequestReadsBack | src/roq/bybit/gateway/order_entry_rest.cpp:781-798 | over any run, the bytes of each request read as the order it was made for, if and only if its texts are clean; and spot never sends an amendment |
| Correlation.AcceptedExactlyWhenAcknowledged | src/roq/bybit/gateway/order_entry_rest.cpp:838-899 | a request is reported as accepted if and only if the exchange acknowledged it, and when an acceptance is contradicted |
| Correlation.RateLimitExactly | src/roq/bybit/gateway/order_entry_rest.cpp:1289-1305 | a rate limit is reported if and only if the status is 429, or 403 without termination |
| Correlation.AnswerNamesAnsweredOrder | src/roq/bybit/gateway/order_entry_rest.cpp:838-899 | over any run, when the exchange acknowledges a new order with the link id it read off the bytes of some new order, the answer goes to the order whose completion it is and names the request whose bytes were read; so it names its own request if and only if that request was answered, while ids are not reused |
| Correlation.AcceptedThenFailed | src/roq/bybit/gateway/order_entry_rest.cpp:1311-1322 | a run of one order with two contradicting answers |
| Correlation.SelectedExactly | src/roq/bybit/gateway/order_entry_rest.cpp:1182-1184 | the filter of a cancel-all selects everything, or each occurrence of one symbol |
| Correlation.CancelAllForwards | src/roq/bybit/gateway/order_entry_rest.cpp:1152-1208 | each selected symbol gets its own request and its own forwarding acknowledgement, in order |
| OrderEntryWs.OrderEntryWsStream.CreateOrder | src/roq/bybit/gateway/order_entry_ws.cpp:162-176 | a new order is refused or sent as its message |
| OrderEntryWs.OrderEntryWsStream.ModifyOrder | src/roq/bybit/gateway/order_entry_ws.cpp:178-196 | the same for an amendment, also on spot |
| OrderEntryWs.OrderEntryWsStream.CancelOrder | src/roq/bybit/gateway/order_entry_ws.cpp:198-216 | the same for a cancellation |
| OrderEntryWs.OrderEntryWsStream.OnAnswer | src/roq/bybit/gateway/order_entry_ws.cpp:294-355 | an answer is reported if and only if it has an error code, under the echoed request id |
| OrderEntryWs.EchoNamesRequest | src/roq/bybit/protocol/json/encoder.cpp:146-288 | what an exchange reads off a message is the operation and the request id of the request |
| OrderEntryWs.MessageReadsBack | src/roq/bybit/protocol/json/encoder.cpp:146-288 | a message is read as its operation, its request id and the order that was asked for, if and only if none of its texts needs escaping |
| OrderEntryWs.SentExactlyWhenReady | src/roq/bybit/gateway/order_entry_ws.cpp:162-216 | a message is sent if and only if the connection is ready, on spot too |
| OrderEntryWs.NothingBeforeReady | src/roq/bybit/gateway/order_entry_ws.cpp:164-167 | over any run, nothing is sent or reported before the connection is ready |
| OrderEntryWs.RejectionsNameRequests | src/roq/bybit/gateway/order_entry_ws.cpp:294-355 | over any run, every rejection passes on the code and text of an answer with an error code, and names the operation and request id of the message that was answered, a new order also by client order id |
| OrderEntryWs.RejectedExactlyWhenAnswered | src/roq/bybit/gateway/order_entry_ws.cpp:294-355 | a message is reported as rejected as often as the exchange answered it with an error code |

## Left out

- Sockets, HTTP, TLS, signing, metrics, logging, flags, configuration and bridges: input, output and wiring.
- The generated JSON decoders: messages and responses arrive decoded, a malformed one as the exception it throws.
- FNV hashing of header names and keys: names are compared directly.
- The WebSocket order parser (parser_2.cpp): its result depends on a key iterator that is not part of this model.
- The rate limiter: how many requests a timer hands out is arbitrary; so is when a client honours the gate.
- core::Download2: the REST order stream becomes ready and unready by events.
- The dispatcher's order and book caches: the dispatcher records what it is given.
- Exceptions of the dispatcher are modelled where something is kept across them: in the execution handlers, at order responses and in the instrument loop. Elsewhere it does not throw: not when a batch reaches streams and accounts, when a status is reported, or when a public trade is dispatched.
- Profit and loss, multipliers and reference data fields: not computed; looking up reference data does not throw.
- Prices and quantities are integer numbers of units of a precision, or no value; binary rounding is not modelled, and no value prints as `nan`.
- Enumeration tables other than those the encoders use; undefined members print as an empty text.
- The table from return codes to errors: an answer carries the code itself; no code stands for a rate limit.
- Symbols and ids are strings of any length: the fixed capacity of the program's string types is not modelled.
- Start, stop, timer and control events of the controller, and which order entry stream it routes an order to.
- Query texts of the downloads, with their limits and look-back windows, and the updates made of their results.
- Status, side and type of the order update that accompanies an amend or cancel response: its quantities are modelled.
- Time series requests and pings of the market data stream.
- The logon timeout and its assertion on the private and order streams.
- Everything else the private and order streams push: wallet, position and order updates are passed through.
- What the number reader does with a depth that is not a 32-bit number: such a push counts as not survived.
- A numeric header that does not parse: a header event carries the decoded value.
- Overflow of clocks, reset times, header values and of the 64-bit request id counter.
- Retries of the instrument download and everything in rest.cpp besides the instrument loop.
- Whether the link id sent on amendments and cancellations is the right one: it is sent as given.
- The order in which unordered sets and maps are visited is arbitrary.
- The connection under OrderEntryRest calls a callback at most once; that it ever does is not assumed.
- The callbacks of downloads share the response splitter but emit no order response; only order actions are correlated.
- Assertions of debug builds: the model follows a release build and reports a failed assertion as a flag; conflict (409) is answered like other client errors.
- Dispatching a forwarding acknowledgement does not throw.
- `tradable` does not change over a run, so an account's answer about a symbol is always the same.
- A new stream does not become ready before its creation has returned.
- OrderEntryWs.RejectionsNameRequests: assumes that the exchange echoes the operation and the request id it was sent.
- AccountSafety.SpotNeverAsksPositions: assumes that the exchange acknowledges only topics subscribed in the session.

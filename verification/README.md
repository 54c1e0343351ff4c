# Vertex: a verified model of the exchange

Vertex is a small exchange: a matching engine in Rust behind a gateway in Go. This project models the engine
and five self-contained pieces around it, and proves what each promises. `dafny verify dfyconfig.toml` checks
the whole project.

- **The order book** (`Types`, `Levels`, `Matching`, `OrderBooks`): two sorted maps from price to a FIFO queue,
  and an index of order copies that fills never update. The class `OrderBook` runs the source's loops, with
  their rotations past own orders and levels set aside; each loop is proved equal to a recursive function.
  `Soundness` shows that every match is legal and accounts for every change, `Greedy` that a taker trades as a
  simple fold would, `Crossing` when a resting order does, `BookLaws` states the results, and `Publishing` what the
  published trades say.
- **Accounts and the engine** (`Users`, `Engine`, `CoreEngines`): balances, locks per order, and the operations
  that lock, match and then settle. `Settlement` and `EngineLaws` prove that the invariant of books and locks
  carries settlement through, `Runs` carries it over whole runs, `Holdings` says exactly which locks there are,
  `Spread` when books stay uncrossed, `Overflow` and `Panics` when an order takes the engine down; `Ledger` and
  `Intended` follow the totals of each asset as the code moves them and as its documentation intends, and
  `Witness` is one small run that shows both failures.
- **The log** (`Wal`, `Fnv`, `Timeless`, `Replay`, `WalEngines`, `Recovery`, `Outage`): numbered, checksummed
  entries, the engine that logs every operation, replay under another clock, crashes between any two steps, and
  a history after which the engine stays down.
- **Ids, throttling, rate limits, fill accounting** (`Snowflake`, `Throttle`, `Limiter`, `Fills`).

Where the source changes objects in place, so does the model: `OrderBook`, `User`, `CoreEngine`, `WalEngine`,
`WalWriter`, `WalReader`, `Generator`, `DepthThrottler`, `RateLimiter`, `Store` and `Registry` are classes whose
methods are proved equal to functions of the old state, and the properties are proved of those functions.
Iteration over a hash map takes an arbitrary element each time, so results hold for every iteration order.
Clock readings, the id source and the entry encoding are inputs: `stamp` gives the id and time of each trade,
`now` the time of a modify's replacement order, `clock` successive readings, `encoding` the checked bytes.

Where the code and its documentation part ways, the model follows the code:

- Settlement shrinks a lock and credits the received asset but never debits the balance
  (`engine/src/user/mod.rs:215-244`), so totals grow with every trade, though the documentation promises
  conservation (`engine/src/engine/mod.rs:75-77`). `RunConservedIff` gives the exact condition,
  `ConservationFails` a run, and `IntendedRunConserves` proves the promise of the code with the missing debit.
- A settlement failure "can never legitimately fail" (`engine/src/engine/mod.rs:79-80`) except by overflow of a
  credit, which an admissible run reaches (`OverflowHappens`).
- After such a panic the state is said to be restored from the log (`engine/src/engine/mod.rs:82-83`,
  `engine/src/main.rs:28-29`), but the command is logged before it is applied: `DownForGood` is a history.
- A resting order entered behind a better order of its side may leave a crossing with another user
  (`BlockedHappens`); `RestingLaw` says exactly when.
- A buy filled below its limit keeps the difference locked, also once it is filled whole, unless it was FAK.
  `AddOrderLaw` states each lock a placement leaves, `ReachableLocks` which locks there are after any run.
- A modified order keeps its id (`engine/src/engine/mod.rs:288-296`), where
  `engine/src/order_modify/mod.rs:5` speaks of a fresh one.
- The timestamp field of an id holds 42 bits (`engine/src/snowflake_id/mod.rs:178`), where the layout given at
  `engine/src/snowflake_id/mod.rs:13` reserves 41.

## Model

| member | source | states |
|---|---|---|
| `Types.Order.Fills` | engine/src/order/mod.rs:212-240 | A fill of at most the remainder takes exactly that much off; an overfill or a fill of zero changes nothing; the order is then filled if nothing remains and partially filled otherwise; all other fields stay. |
| `OrderBooks.OrderBook.AddOrder` | engine/src/orderbook/mod.rs:549-586 | The book and the published trades after placing are those of the specification `Add`: duplicate ids refused, FAK and FOK never resting, all others entered and then matched. |
| `OrderBooks.OrderBook.MatchOrder` | engine/src/orderbook/mod.rs:132-294 | The nested loops with rotations and levels set aside compute `Clear`; filled orders leave the index; the loops terminate from any book. |
| `OrderBooks.ClearLevels` | engine/src/orderbook/mod.rs:138-294 | The outer loop: best level against best level, a level of self-trades only set aside and put back; it ends because the number of levels falls. |
| `OrderBooks.DuelLevels` | engine/src/orderbook/mod.rs:150-254 | The inner loop over two queues, with both rotation counters; it ends by the measure orders, same-side turns left, opposite skips left. |
| `OrderBooks.OrderBook.MatchAgainstOpposite` | engine/src/orderbook/mod.rs:306-513 | FOK is refused untouched exactly when other users' crossing orders do not suffice; otherwise the sweep is carried out; the safety-net panic is unreachable. |
| `OrderBooks.SweepLevels` | engine/src/orderbook/mod.rs:354-498 | The taker's loop over levels, best first, equals `Sweep`. |
| `OrderBooks.FillLevel` | engine/src/orderbook/mod.rs:396-460 | The taker's loop over one queue, own orders rotated at most once round, equals `SweepLevel`. |
| `OrderBooks.Liquidity` | engine/src/orderbook/mod.rs:321-352 | The FOK pre-check sums exactly what the taker may trade with. |
| `OrderBooks.OrderBook.CancelOrder` | engine/src/orderbook/mod.rs:519-539 | The order leaves its queue and the index, an emptied level is dropped, and the index copy is returned; an unknown id changes nothing. |
| `OrderBooks.OrderBook.CancelOrdersForUser` | engine/src/orderbook/mod.rs:637-664 | Both sides and the index lose exactly the user's orders, whatever the iteration order, and the ids returned are exactly those, each once. |
| `OrderBooks.OrderBook.GetOrderInfo` | engine/src/orderbook/mod.rs:617-635 | Bids with strictly falling and asks with strictly rising prices, every level once, each with its total clamped at the largest quantity. |
| `BookLaws.AddSound` | engine/src/orderbook/mod.rs:549-586 | From any well-formed book, crossed or not, placing keeps the representation, and the matches are a legal run from the resting orders and the new one to the orders then resting plus what is discarded of an order that never rests. |
| `BookLaws.IndexAsEntered` | engine/src/orderbook/mod.rs:549-586 | The index holds every resting order as it was when it entered, whatever has been filled since. |
| `Soundness.ClearSound` | engine/src/orderbook/mod.rs:132-294 | Every match of the resting loop is legal where it happens and together they account for every change of both sides. |
| `Soundness.SweepSound` | engine/src/orderbook/mod.rs:354-498 | The same for a taker that never rests. |
| `BookLaws.EveryMatchLegal` | engine/src/orderbook/mod.rs:167-254 | No trade pairs a user with itself, the price is within both limits, and the smaller remainder trades. |
| `Soundness.TradedIsTheFall` | engine/src/orderbook/mod.rs:202-252 | For every order, what it traded plus what is left of it is what was left before. |
| `Publishing.PublishedLaw` | engine/src/orderbook/mod.rs:202-254 | The published list of any order from any well-formed book: both sides of a trade carry one price, within both limits, and one quantity, under the ids of a live bid and a live ask of different users and the id and time drawn for it; what is published for a resting order is the fall of its remainder, and for one that never rests all it asks for, or all that others offer. |
| `Soundness.RunOnlyShrinks` | engine/src/orderbook/mod.rs:202-252 | No field but remainder and status ever changes, and remainders never grow. |
| `BookLaws.TakerLaw` | engine/src/orderbook/mod.rs:556-573 | FAK and FOK from any book: the trades are those of the greedy fold over other users' orders; FOK trades exactly when these suffice; FAK is answered with trades exactly when some opposite price is within its limit; otherwise the book is untouched. |
| `Greedy.SweepIsFold` | engine/src/orderbook/mod.rs:354-498 | Skipping own orders by rotation and setting levels aside trades exactly as the fold that never sees own orders. |
| `Greedy.FoldInOrder` | engine/src/orderbook/mod.rs:396-460 | The i-th match is with the i-th candidate, and only the last candidate can be left partly filled. |
| `Greedy.CandidatesByPriority` | engine/src/orderbook/mod.rs:321-352 | The candidates come by better price, and at one price in queue order. |
| `Greedy.FillsWhole` | engine/src/orderbook/mod.rs:321-352 | The taker is filled whole exactly when the candidates' remainders suffice. |
| `BookLaws.TakerLeaves` | engine/src/orderbook/mod.rs:396-498 | Every opposite level afterwards is the old queue less what was traded; only the taker's own orders may have gone to the back, so no one else loses his place; the taker's own side is untouched. |
| `BookLaws.RestingLaw` | engine/src/orderbook/mod.rs:132-294 | In a book whose only crossings are between orders of one user, a resting order trades as the fold does, and leaves such a book, if and only if it is not blocked: no better order on its own side faces another user at a best opposite price it crosses. A blocked order trades nothing. |
| `BookLaws.BlockedHappens` | engine/src/orderbook/mod.rs:255-270 | A concrete book where the new order is blocked and trades nothing, though the fold would trade: the loop drops the opposite level only. |
| `Crossing.BlockedIsOneUser` | engine/src/orderbook/mod.rs:155-200 | From any book, crossed or not, two levels the inner loop gives up on hold orders of one user only, on both sides: the rotation counters never set aside an order that could have traded there. |
| `BookLaws.UncrossedLaw` | engine/src/orderbook/mod.rs:132-294 | From an uncrossed book any resting order trades as the fold does and leaves crossings between its owner's orders only; unless it crosses its owner's, the book stays uncrossed. |
| `BookLaws.UncrossedLeaves` | engine/src/orderbook/mod.rs:132-294 | From an uncrossed book a resting order leaves the opposite levels as a taker would; what is left of it, which is what it did not trade, stands behind all others of its price, and nothing else changes on its side. |
| `BookLaws.TakerKeepsOnlySelf` | engine/src/orderbook/mod.rs:556-573 | An order that never rests never makes anyone cross. |
| `BookLaws.SelfCrossRests` | engine/src/orderbook/mod.rs:271-294 | A user's own crossing orders both rest. |
| `BookLaws.CancelLaw` | engine/src/orderbook/mod.rs:519-539 | Exactly the orders with the id go, whoever stood in front of another still does, the representation holds, and the answer is the entry of the index. |
| `BookLaws.CancelUserLaw` | engine/src/orderbook/mod.rs:637-664 | Exactly the user's orders go, whoever stood in front of another still does, and the representation holds. |
| `Spread.NeverCrossedIff` | engine/src/orderbook/mod.rs:549-586 | In a run from the start every book stays free of crossings between users, after every command, exactly when no order placed or modified was blocked where it was entered. |
| `Spread.BidBelowAsk` | engine/src/orderbook/mod.rs:549-586 | In every run where no command enters an order that crosses its own user's, the best bid of every book is below its best ask after every command. |
| `Users.User.GetLockedBalance` | engine/src/user/mod.rs:187-195 | The clamped sum over all locks in the asset, in any iteration order. |
| `Users.User.GetAvailableBalance` | engine/src/user/mod.rs:119-129 | Balance less that sum, never below zero. |
| `Users.User.Lock` | engine/src/user/mod.rs:145-158 | Succeeds exactly when the amount is available, and then records the lock and nothing else. |
| `Users.User.UnlockOrder` | engine/src/user/mod.rs:172-177 | Removes the lock and nothing else. |
| `Users.User.ApplyFill` | engine/src/user/mod.rs:215-244 | The account and the error are those of `AfterFill` in each of the five cases, the half-done one of a credit overflow included. |
| `Users.User.AddBalance` | engine/src/user/mod.rs:102-109 | Adds unless the sum overflows, and then changes nothing. |
| `Users.User.SubtractBalance` | engine/src/user/mod.rs:247-256 | Takes from the balance exactly when that much is available. |
| `Users.SolventAvailable` | engine/src/user/mod.rs:119-129 | When locks are covered neither clamp nor saturation acts: available is the plain difference. |
| `Users.RelockLaw` | engine/src/user/mod.rs:145-158 | Locking succeeds exactly when the amount is free, also under an id with an older lock, which it replaces; other locks and balances stay. |
| `Users.LockLaw` | engine/src/user/mod.rs:145-158 | Locking reserves exactly the amount, keeps locks covered, and is undone by unlocking. |
| `Users.UnlockLaw` | engine/src/user/mod.rs:172-177 | Releasing gives back exactly what was held. |
| `Users.FillLaw` | engine/src/user/mod.rs:215-244 | A fill takes the debit out of the lock, adds the credit to the balance, changes nothing else, and keeps locks covered. |
| `CoreEngines.CoreEngine.SettleTrades` | engine/src/engine/mod.rs:84-140 | The loop over a published trade list equals `Settle` of the matches; a fault stops it there. |
| `CoreEngines.CoreEngine.AddOrder` | engine/src/engine/mod.rs:161-214 | Validate, lock, match, settle, release: books, accounts, answer and trades are the specification's. |
| `Publishing.PlacingPublishes` | engine/src/engine/mod.rs:161-214 | The same of the list the engine answers with. |
| `CoreEngines.CoreEngine.CancelOrder` | engine/src/engine/mod.rs:216-228 | The order and its lock go together. |
| `CoreEngines.CoreEngine.ModifyOrder` | engine/src/engine/mod.rs:230-318 | Check, cancel, release, lock anew, place again: equal to the specification. |
| `Publishing.ModifyPublishes` | engine/src/engine/mod.rs:230-318 | The same of a modify, from the book without the old order. |
| `CoreEngines.CoreEngine.CheckModify` | engine/src/engine/mod.rs:236-275 | The checks in the source's order, each with its error, before anything changes. |
| `CoreEngines.CoreEngine.AddTradingPair` | engine/src/engine/mod.rs:145-148 | An empty book for a new pair; an existing one is kept. |
| `CoreEngines.CoreEngine.RemoveTradingPair` | engine/src/engine/mod.rs:150-159 | The book goes, and exactly its orders' locks are released, in any iteration order. |
| `CoreEngines.CoreEngine.AddUser` | engine/src/engine/mod.rs:332-337 | An empty account for a new user; an existing one is kept. |
| `CoreEngines.CoreEngine.RemoveUser` | engine/src/engine/mod.rs:339-354 | The user's orders leave every book, in any iteration order, the account goes, and its balances are the answer. |
| `CoreEngines.CoreEngine.DepositBalance` | engine/src/engine/mod.rs:356-367 | Unknown user and overflow are refused without change. |
| `CoreEngines.CoreEngine.WithdrawBalance` | engine/src/engine/mod.rs:369-380 | Unknown user and insufficient available funds are refused without change. |
| `CoreEngines.CoreEngine.Apply` | engine/src/wal/engine.rs:57-138 | Any logged command does what its own operation does. |
| `Settlement.SettleLaw` | engine/src/engine/mod.rs:84-140 | Settling any trade list a book can return never meets a missing user, a missing or too small lock, a wrong asset or an oversized notional; the only fault left is a credit overflow. Afterwards every live order is exactly backed, and locks of filled orders hold their price improvement only. |
| `Settlement.LockLeft` | engine/src/engine/mod.rs:84-140 | Each live order has locked afterwards what it had less the notional of its buys or the quantity of its sells, and no lock when that is nothing; if it is filled, that is the price improvement of a buy and nothing for a sell. |
| `Overflow.PanicsIffOverflow` | engine/src/engine/mod.rs:84-140 | Settlement panics exactly when some party's balance plus all that the list credits it exceeds a quantity. |
| `Overflow.SettleCredits` | engine/src/engine/mod.rs:84-140 | Settlement that succeeds credits every user exactly the base it bought and the quote it sold for, and changes no other balance. |
| `Panics.PlacingPanicsIff` | engine/src/engine/mod.rs:161-214 | In every reachable state, placing an order that passes the checks, ids for its trades given, panics exactly when it trades and such a balance exists. |
| `Panics.ModifyPanicsIff` | engine/src/engine/mod.rs:230-318 | The same of a modify that passes its checks, with the replacement placed in the book without the old order. |
| `Panics.ForecastRight` | engine/src/orderbook/mod.rs:549-586 | The trades of an order can be told from the book as it is: the fold's, or none for a FOK that cannot be filled and a blocked resting order. |
| `Panics.PlacingPanicForecast` | engine/src/engine/mod.rs:161-214 | So whether placing will panic can be read off book and balances before the call. |
| `Panics.ModifyPanicForecast` | engine/src/engine/mod.rs:230-318 | And likewise of a modify. |
| `Witness.OverflowHappens` | engine/src/engine/mod.rs:161-214 | The panic is reachable: an admissible run of eight commands ends in it exactly when one deposit fills the buyer's account. |
| `EngineLaws.AddOrderLaw` | engine/src/engine/mod.rs:161-214 | Placing keeps the engine invariant; every refusal and every `Ok(None)` changes nothing. Once it trades, every order that was there, and the new one, has locked what it had less what the trades cost it: nothing if that is nothing, the price improvement if it is filled; only a FAK gives its lock back, and no other lock moves. |
| `EngineLaws.PlacingRefusals` | engine/src/engine/mod.rs:161-190 | Which orders are refused and with which error: a price or quantity that is not positive, a notional that does not fit or an id in the book; an unknown pair; an unknown user; and less free than the order is worth. |
| `EngineLaws.NoTradesIff` | engine/src/orderbook/mod.rs:556-573 | An accepted order is answered `Ok(None)` exactly when it is a FAK and no opposite price is within its limit, or a FOK and others do not offer enough. |
| `EngineLaws.NoTradesIsNoOp` | engine/src/engine/mod.rs:205-212 | From any state with well-formed books, `Ok(None)` is a no-op exactly when no older lock sat under the order's id. |
| `EngineLaws.CancelOrderLaw` | engine/src/engine/mod.rs:216-228 | Answers true exactly for an order of that pair, then removes it from its book and its lock from its user, and nothing else; otherwise changes nothing. |
| `EngineLaws.RelockSucceeds` | engine/src/engine/mod.rs:257-286 | After the pre-check passes, the lock taken after the release cannot fail. |
| `EngineLaws.ModifyRefusals` | engine/src/engine/mod.rs:236-275 | Which modifies are refused and with which error; for funds exactly when the new worth exceeds what is free plus what the old order has locked. |
| `EngineLaws.RefusedAlike` | engine/src/engine/mod.rs:254-286 | A modify of a known order is refused exactly when placing the replacement after a cancel would be. |
| `EngineLaws.ModifyIsCancelThenAdd` | engine/src/engine/mod.rs:230-318 | A modify that passes its checks is a cancel followed by a placement that is never refused, of an order with the old id and type and the requested side, status, price and quantity. |
| `EngineLaws.ModifyOrderLaw` | engine/src/engine/mod.rs:230-318 | A refused modify changes nothing; one that passes trades or rests, never answers `Ok(None)`, and leaves every lock as placing the replacement does. |
| `EngineLaws.RemoveTradingPairLaw` | engine/src/engine/mod.rs:150-159 | Removing a pair releases exactly its orders' locks and keeps the invariant. |
| `EngineLaws.RemoveUserLaw` | engine/src/engine/mod.rs:339-354 | Removing a user keeps the invariant: every resting order still has its owner, and other accounts are untouched. |
| `EngineLaws.DepositLaw` | engine/src/engine/mod.rs:356-367 | A deposit is refused exactly for an unknown user or a balance without room, without change, and otherwise adds to that balance alone. |
| `Runs.RemovalReplies` | engine/src/engine/mod.rs:339-354 | Removing a pair or a user tells whether there was one, and a user takes along exactly the balances told. |
| `EngineLaws.WithdrawLaw` | engine/src/engine/mod.rs:369-380 | In a reachable state a withdrawal succeeds exactly for what is not locked, and takes it from that balance alone; otherwise nothing changes. |
| `Runs.RunLaw` | engine/src/engine/mod.rs:143-391 | Every run of commands with fresh order ids keeps the invariant; the only panic of locking, matching and settling it can end in is a credit overflow. Drawing trade ids is taken to succeed, as on a clock that never goes back. |
| `Runs.ReachableLedger` | engine/src/engine/mod.rs:161-318 | In every reachable state locks never exceed the balance; a resting sell has its remainder locked, a resting buy its remainder at the limit plus the price improvement of its fills; owners exist; any other lock holds price improvement. |
| `Holdings.PlacingCredits` | engine/src/engine/mod.rs:161-214 | So does placing an order that trades. |
| `Holdings.ModifyCredits` | engine/src/engine/mod.rs:230-318 | And a modify that trades. |
| `Holdings.ReachableLocks` | engine/src/engine/mod.rs:161-318 | In every reachable state there is a lock under an id exactly if an order rests under it or improvement is on record for it; it belongs to one user, is never empty, and without a resting order holds exactly that improvement. |
| `Ledger.SettleCreates` | engine/src/engine/mod.rs:84-140 | Settlement as written raises total base by the quantity traded and total quote by the notional traded. |
| `Ledger.ConservedIffNoTrades` | engine/src/engine/mod.rs:73-140 | Settling one trade list conserves every asset exactly when it is empty. |
| `Ledger.RunConservedIff` | engine/src/engine/mod.rs:73-140 | Over any admissible run without a panic, totals are what was deposited less what was withdrawn or left with a removed user, exactly when no order of the run has traded. |
| `Witness.ConservationFails` | engine/src/engine/mod.rs:73-140 | A run the engine can receive after which a total exceeds all that was deposited: one ETH is bought, and both users end up with the ETH and the coin. |
| `Ledger.RunTotal` | engine/src/engine/mod.rs:143-391 | Over any run without a panic the total of an asset moves by deposits, withdrawals, removed users and what settlement creates, exactly. |
| `Ledger.IntendedFillLaw` | engine/src/user/mod.rs:215-244 | With the debit also taken out of the balance, the debit is always covered and locks stay covered. |
| `Ledger.IntendedConserves` | engine/src/engine/mod.rs:73-140 | With that debit any trade list that settles conserves every asset. |
| `Intended.IntendedRunConserves` | engine/src/engine/mod.rs:73-140 | With that debit, over any run of any commands, totals change by deposits, withdrawals and removed users only. |
| `Timeless.UntimedAdd` | engine/src/orderbook/mod.rs:549-586 | Erasing timestamps of orders commutes with placing: matching never reads the clock. |
| `Replay.ExecUntimed` | engine/src/wal/engine.rs:57-138 | Erasing timestamps commutes with every command, whatever the clock reads. |
| `Replay.ReplayLaw` | engine/src/wal/engine.rs:24-36 | The same commands under any other clock readings give the same books, users, balances and locks up to order timestamps, the same answers, and the same settlement panic if there is one; trade ids are drawn without a panic in both runs. |
| `Replay.SameTrades` | engine/src/wal/engine.rs:57-138 | The trades of both runs agree in order ids, users, prices and quantities. |
| `WalEngines.WalEngine.Open` | engine/src/wal/engine.rs:18-46 | Opening a log rebuilds the engine the log stands for and continues above its highest number; a log that panics in replay yields no engine. |
| `WalEngines.WalEngine.Recover` | engine/src/wal/engine.rs:24-36 | The loop over the reader applies exactly the accepted entries, in order, and finds their highest number. |
| `WalEngines.WalEngine.Submit` | engine/src/wal/engine.rs:142-278 | Log, then apply: exactly one entry, above all others, is appended, and a log that rebuilt the engine before rebuilds it after, or panics in replay if the command panicked. |
| `WalEngines.WalEngine.CancelOrder` | engine/src/wal/engine.rs:174-195 | Apply, then log: the logged outcome is the real one and is what replay answers. |
| `WalEngines.LogOneMore` | engine/src/wal/engine.rs:141-278 | One more logged command keeps log and engine in step. |
| `Recovery.StepLaw` | engine/src/wal/engine.rs:141-278 | Every micro-step of logging, applying, crashing and restarting keeps the log consistent with the engine, its numbers rising and its cancels truthful. |
| `Recovery.HistoryLaw` | engine/src/wal/engine.rs:18-278 | So does any history of commands, crashes and restarts. |
| `Recovery.HistoryFromBoot` | engine/src/wal/engine.rs:18-278 | From an empty log through any such history, a crash at that point comes back before or after the operation in flight. |
| `Recovery.CrashLaw` | engine/src/wal/engine.rs:179-183 | After a crash at any point, and a restart whose replay draws its trade ids, whatever times it reads, the engine is back in the state before or after the operation in flight: after it once logged, before it for a cancel not yet logged. |
| `Recovery.BackReachable` | engine/src/wal/engine.rs:18-46 | An engine brought back from a log of admissible commands satisfies everything proved of reachable states, and fails to come back on a credit overflow only. |
| `Outage.DownForGood` | engine/src/engine/mod.rs:79-83 | A history from an empty log, of admissible commands, that takes the engine down, after which no sequence of restarts brings it back. |
| `Recovery.PanicIsForGood` | engine/src/engine/mod.rs:79-83 | A command that panics is in the log already, so no restart ever brings the engine back from that log. |
| `Wal.WalWriter.Write` | engine/src/wal/mod.rs:134-157 | The next number, version 1, the FNV digest of number and record, one line at the end. |
| `Wal.WalReader.Next` | engine/src/wal/mod.rs:183-216 | The next entry that parses and verifies; blank, malformed and mismatching lines are skipped, a read error ends it. |
| `Wal.LineByLine` | engine/src/wal/mod.rs:183-216 | What is read is what each line yields, in order, up to the first read error: its entry if it parses and has no checksum or the FNV digest of its bytes, nothing otherwise. |
| `Wal.WrittenIsRead` | engine/src/wal/mod.rs:134-216 | Entries written one after the other are read back whole, in order, with rising numbers. |
| `Wal.RisingSurvives` | engine/src/wal/mod.rs:191-206 | Whatever lines are lost, the numbers left still rise and none is new. |
| `Wal.OneByteRejected` | engine/src/wal/mod.rs:75-88 | An entry whose checked bytes changed in one place is dropped. |
| `WalEngines.LogGrows` | engine/src/wal/mod.rs:134-157 | Writing behind what was read extends what is read by exactly the new entry. |
| `Fnv.Fnv1a64` | engine/src/wal/mod.rs:20-29 | The loop computes the digest of the whole string. |
| `Fnv.KnownDigests` | engine/src/wal/mod.rs:20-29 | The digests of the empty string, of `a` and of `foobar` are the published ones of FNV-1a. |
| `Fnv.OneByteShows` | engine/src/wal/mod.rs:20-29 | Strings of one length that differ in exactly one byte have different digests. |
| `Fnv.HashFromInjective` | engine/src/wal/mod.rs:20-29 | A common tail never merges two different states, since the prime can be undone. |
| `Snowflake.Generator.NextId` | engine/src/snowflake_id/mod.rs:156-182 | The call is `NextTick`: it panics exactly when the clock is behind the last id; otherwise the tick follows the last one, and when the sequence wraps it spins to the first later millisecond. Shifting and masking the id gives milliseconds since 2024, datacenter, machine and sequence. |
| `Snowflake.SpinsIff` | engine/src/snowflake_id/mod.rs:164-176 | A call reads the clock once unless all 4096 ids of that millisecond are used up; then it goes on to the first later reading. |
| `Snowflake.RunIncreases` | engine/src/snowflake_id/mod.rs:156-182 | Any number of calls of one generator yields strictly increasing ids, above the last one issued, through every wrap of the sequence, as long as none panics; on a clock that never goes back none does. |
| `Snowflake.IdsIncrease` | engine/src/snowflake_id/mod.rs:6-8 | Ids strictly increase along any chain of ticks that follow one another. |
| `Snowflake.Unpack` | engine/src/snowflake_id/mod.rs:178-181 | The or-ed fields are recovered by shifting and masking. |
| `Snowflake.SameIdIff` | engine/src/snowflake_id/mod.rs:178-181 | Two ids are equal exactly when all fields are, timestamps counted modulo 2^42 ms. |
| `Snowflake.MachinesApart` | engine/src/snowflake_id/mod.rs:54-56 | Different machine and datacenter pairs never share an id. |
| `Throttle.DepthThrottler.Request` | api-gateway/internal/server/depth_throttle.go:45-80 | Fires at once when idle long enough; otherwise marks the pair and arms at most one timer. |
| `Throttle.DepthThrottler.Callback` | api-gateway/internal/server/depth_throttle.go:68-78 | Disarms, clears the mark, sets the time, and fires if marked. |
| `Throttle.ThrottleLaw` | api-gateway/internal/server/depth_throttle.go:18-80 | Over all interleavings of requests and of callbacks of any running timer: refreshes of a pair are at least an interval apart; at most one timer of a pair runs, it is the one its field points to, it ends one interval after a refresh and runs exactly while a request is pending; every request has been followed by a refresh no earlier than it or has one due within an interval; and every refresh was asked for since the one before. |
| `Throttle.AtOnceIff` | api-gateway/internal/server/depth_throttle.go:55-60 | After any schedule a request is answered at once exactly when no timer of the pair runs and every refresh of the pair so far is an interval old. |
| `Limiter.RateLimiter.Allow` | api-gateway/internal/ratelimit/limiter.go:34-53 | Refill, then take a token if there is one; a new key starts with the burst less one. |
| `Limiter.RateLimiter.SweepIdle` | api-gateway/internal/ratelimit/limiter.go:55-66 | Exactly the buckets idle for more than 600 seconds go, in any iteration order; the others stay as they are. |
| `Limiter.WindowBound` | api-gateway/internal/ratelimit/limiter.go:15-53 | In any window a key gets at most the burst plus rate times its length, with sweeps if ten minutes refill the burst. |
| `Limiter.AllowedIff` | api-gateway/internal/ratelimit/limiter.go:34-53 | After any schedule of calls, or with sweeps if ten minutes refill the burst, a call is let through exactly when no window ending with it would then hold more than the burst plus rate times its length: the limiter is never too lax and never too strict. |
| `Limiter.WindowBoundSweepsIff` | api-gateway/internal/ratelimit/limiter.go:15-66 | With sweeps anywhere, the bound holds of all schedules exactly when ten minutes refill the burst; otherwise a schedule of drains and sweeps exceeds it. |
| `Limiter.WindowBoundIff` | api-gateway/internal/ratelimit/limiter.go:39-43 | That bound holds for all schedules of calls exactly when the burst is at least one. |
| `Limiter.SweepsUnnoticed` | api-gateway/internal/ratelimit/limiter.go:55-66 | If ten minutes refill the burst, no answer of any schedule depends on the sweeps in it. |
| `Limiter.IdleIsFreshIff` | api-gateway/internal/ratelimit/limiter.go:55-66 | An idle bucket answers as a fresh one, for all of them, exactly when ten minutes refill the burst. |
| `Fills.Store.UpdateOrdersBatch` | api-gateway/internal/db/fills.go:81-116 | The aggregating loop and the one update take from every row what the fills of the batch name for it under their pair, and set its status by what is left; for non-negative fills that is what the fills do one at a time. |
| `Fills.Registry.Put` | api-gateway/internal/liveorders/registry.go:45-49 | Sets the order's state and no other. |
| `Fills.Registry.Delete` | api-gateway/internal/liveorders/registry.go:53-57 | Forgets the order and no other. |
| `Fills.Registry.ApplyFill` | api-gateway/internal/liveorders/registry.go:63-79 | A tracked order is reduced by the quantity: filled if nothing is left, partially filled if it was empty, its status kept otherwise; other orders stay, and an untracked id is reported and changes nothing. |
| `Fills.BatchRows` | api-gateway/internal/db/fills.go:101-113 | A batch with quantities of any sign takes from each row the sum of its shares, and leaves it filled, partially filled or as it was by what is left. |
| `Fills.StreamRows` | api-gateway/internal/db/fills.go:34-40 | So does any stream of non-negative shares taken one at a time. |
| `Fills.RegistryRows` | api-gateway/internal/liveorders/registry.go:63-79 | And so does the registry, over a whole stream, for every order it tracks. |
| `Fills.FillsTake` | api-gateway/internal/db/fills.go:86-90 | A fill takes the bid's quantity from the bid's order and the ask's from the ask's, both under its own pair. |
| `Fills.BatchIsOneByOne` | api-gateway/internal/db/fills.go:34-40 | One aggregated update per order equals the fills applied one at a time. |
| `Fills.AnyBatches` | api-gateway/internal/db/fills.go:28-40 | However the stream is cut into batches. |
| `Fills.AnyOrder` | api-gateway/internal/db/fills.go:81-90 | In whatever order the fills arrive. |
| `Fills.ReducedTwice` | api-gateway/internal/db/fills.go:105-111 | Two reductions equal their sum exactly when the first does not mark the order filled while the second brings quantity back. |
| `Fills.RegistryAgreesWithBatches` | api-gateway/internal/liveorders/registry.go:59-79 | The registry, told of each fill, and the database, updated in batches, agree on every tracked order after the whole stream. |

## Left out

- gRPC, the command channel, panic catching, Redis, Postgres access, WebSockets, HTTP, JWT and configuration: transport. Commands are taken one at a time.
- JSON and files: a whole line stands for its entry; torn last lines, files that cannot be opened, buffering and `WAL_SYNC` are not modelled. Version numbers are written and, as in the source, never checked.
- Sequence numbers of the log, which are `u64` in the source, do not wrap here.
- The clock of the trade ids: a panic of the id source while matching, when the clock goes back (`engine/src/snowflake_id/mod.rs:158-162`), is not a reply of the engine here, since `stamp` always yields. `Snowflake.RunIncreases` shows that a clock that never goes back causes none; under another one it acts as a crash after the logging, which `Recovery.CrashLaw` covers, and a restart that meets it has to be tried again.
- Panics: the state an interrupted settlement leaves in memory is not described, since the process does not go on with it.
- Tracing output and the `id` field of a user, which nothing reads.
- WalEngines.WalEngine.Submit: one method for the eight operations that log and then apply; in the source each is a method of three lines.
- OrderBooks.DuelLevels: the source's nested loops are separate methods on values here, which the class assigns to its fields afterwards; the queues are not mutated inside the maps.
- OrderBooks.OrderBook.CancelOrdersForUser: the passes over the queues that retain other users' orders are one comprehension each.
- Types.Order.Fills: orders are `Copy` values in the source, so filling one yields a new value here.
- CoreEngines.CoreEngine.Apply: the engine's own generator is not part of its state; trade ids and times come from `stamp`, and freshness of new order ids is the condition `Admissible`, which `Snowflake.RunIncreases` supports.
- Snowflake.Generator.NextId: assumes a clock within 2^42 ms of the epoch that does not stand still for good; the source would otherwise overflow or spin for ever.
- Throttle.DepthThrottler.Request: Go saturates the distance to the zero time at about 292 years, so intervals beyond that are outside the model. Goroutine scheduling of the refresh itself is not modelled.
- Limiter.RateLimiter.Allow: real numbers instead of floating point, and a clock that does not run backwards.
- Fills.Store.UpdateOrdersBatch: quantities are unbounded integers; the trade insert, transactions, redelivery and fills that arrive before their row exists are not modelled.
- Getters, `size`, `has_order`, `get_order_type` and the data-only files: nothing hard to state.

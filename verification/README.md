# Verified models of the trading platform's concurrent core

This project models the parts of the platform whose correctness rests on more than one line of code, and proves
what they guarantee over whole runs. `dafny verify dfyconfig.toml` checks everything.

Code that changes stored state in place is a class; each method carries out one piece of code between two awaits (or
one Redis script) and its contract ties the new state to a step function on values. Runs are sequences of such steps,
so a statement about every run is a statement about every interleaving of the callers, of Redis or the database
answering, and of failures. Pure code is functions. Clocks, random numbers and every remote answer are arbitrary
inputs.

- `SlidingLog`: the sliding-window log limiter over one sorted set, against a log that never forgets.
- `BucketLimiter`: the bucket counter limiter with its expiring keys, against a plain fixed-window counter.
- `SingleFlight`, `CacheAnswers`: `wrap`, `getCache`, `setCache` and `deleteCache` around the shared map of in-flight
  promises, and what their callers get.
- `Unescape`: eight global replacements, against one decoding scan.
- `OrderSteps`, `OrderStatistic`: counters kept by deltas, against a recount of the orders.
- `StatisticScript`: the maintenance script's recount, against the incremental counters.
- `TransactionCheck`, `TransactionWorker`: the validation of a blockchain transaction, the verdict of a tick, and the
  polling worker with its process map.
- `TransactionVerdicts`: what a check decides, told from the history of answers.
- `RepeatedVerdicts`: when an id can get two verdicts without being submitted again.
- `AppealPick`: picking and giving back appeals under a lock per appeal with a limit per admin.
- `TwoFactor`: the read, insert, catch duplicate, read again race of the two-factor secret.
- `RawSql`: filling query placeholders one after the other, against positional substitution.
- `Retry`: retrying with exponential backoff.
- `Options`, `Sets`: an option type and facts about finite sets.

Where the code does not do what one might expect of it, the model follows the code and a theorem says exactly when
the expected property holds:

- Requests of one millisecond share one member of the sorted set, so the log limiter bounds *timestamps*; it bounds
  *calls* on every run exactly when it has one token (`SlidingLog.CallBoundIffOneToken`).
- The log limiter's `EXPIRE` is in seconds while the window is in milliseconds; with a clock that never goes back the
  expiry never takes effect at all (`SlidingLog.LazyTrimmingRefinesFullLog`).
- The bucket limiter's comments speak of the previous bucket, but the code reads the key `currentWindow - windowSize`.
  That key has always expired exactly for windows of at least 34 ms, and the limiter is a plain fixed-window counter
  exactly for those windows or a limit of one (`BucketLimiter.FixedWindowIffLongOrSingle`). Its `check` foretells
  `limit` exactly when the limit is not zero (`BucketLimiter.CheckPredictsLimitIffNonZero`).
- The operator's tables list one step per trade type under two groups, so first match and membership differ there and
  the script's appeal counter is larger (`StatisticScript.LiveOrdersAgree`).
- A transaction submitted again while its earlier object is being checked can be removed from the map unjudged
  (`TransactionWorker.CleaningDropsNewerSubmission`, `TransactionWorker.ResubmissionCanBeLost`).
- An id can get two verdicts without being submitted again exactly when, at that moment, an older object of it is
  under a check that can still reach a verdict, the interval runs, and the object in the map is pending and can reach
  one too; all of this can be read off the state beforehand (`RepeatedVerdicts.TwoVerdictsIffOlderCheck`). It happens
  (`TransactionWorker.TwoVerdictsAfterSubmission`).
- A transaction submitted with a row that has succeeded already succeeds without any answer that passes the checks
  (`TransactionWorker.ArrivedSuccessIsTrusted`).
- A judged transaction whose update fails stays in the map unchecked for as long as its id is not submitted again
  (`TransactionWorker.FailedUpdateStrandsEntry`).
- One `setCache` with a function while the key is led ends single flight, and nothing else does
  (`SingleFlight.SingleFlightIffNeverSetWhileLed`).
- A pick overwrites an admin exactly when a decision that named one committed after the pick loaded the appeal, and
  then it overwrites that one (`AppealPick.PickOverwritesIffDecidedInside`); this happens
  (`AppealPick.CloseInsidePickIsOverwritten`). A session cancel clears another admin than the one it saw in the same
  case (`AppealPick.CancelClearsOtherIffDecidedInside`). Closing an appeal is a step without the lock because the
  deciding use cases run inside a transaction that commits after their lock is released.
- `generateSecret` throws after a duplicate exactly when the stored row has no secret
  (`TwoFactor.DuplicateThrowsIffNoSecret`).
- A parameter is inlined faithfully in every query exactly when its rendering has neither `?` nor a dollar pair that
  `String.replace` expands (`RawSql.FaithfulIffPlain`).

## Model

| member | source | states |
|---|---|---|
| `SlidingLog.SlidingWindowLog.Check` | src/utils/rate-limit/RateLimitStrategy.ts:7-21 | The check script answers from the members of the closed window and leaves the key as it found it, but for an expiry that has passed |
| `SlidingLog.SlidingWindowLog.RunAcquire` | src/utils/rate-limit/RateLimitStrategy.ts:22-53 | The acquire script's reply and new key: expiry and trimming only on an empty window, the refusal, and the added member |
| `SlidingLog.SlidingWindowLog.Limit` | src/utils/rate-limit/RateLimitStrategy.ts:79-97 | `limit` is one acquire on the live key and succeeds when the reply is not negative |
| `SlidingLog.SlidingWindowLog.Clean` | src/utils/rate-limit/RateLimitStrategy.ts:54-56 | A clean leaves the absent key |
| `SlidingLog.LazyTrimmingRefinesFullLog` | src/utils/rate-limit/RateLimitStrategy.ts:7-53 | With a clock that never goes back, every call of every run is answered as by a log that never forgets, and the key never carries an expiry |
| `SlidingLog.BackwardStepLosesHistory` | src/utils/rate-limit/RateLimitStrategy.ts:32-37 | For every configuration and every backward step of the clock, some run that goes back once by that step gets an answer the full log does not give |
| `SlidingLog.WindowBound` | src/utils/rate-limit/RateLimitStrategy.ts:22-53 | In every run, at most `tokens` distinct timestamps admitted since the last clean lie in any closed window |
| `SlidingLog.DistinctTimesBoundCalls` | src/utils/rate-limit/RateLimitStrategy.ts:22-53 | If call times strictly increase, at most `tokens` calls are admitted in any window |
| `SlidingLog.CallBoundIffOneToken` | src/utils/rate-limit/RateLimitStrategy.ts:42-52 | With repeated milliseconds allowed, admitted calls are bounded by `tokens` on every run exactly when there is one token |
| `SlidingLog.ExactReset` | src/utils/rate-limit/RateLimitStrategy.ts:27-52 | After a rejected `limit`, whatever is called up to the announced reset, the next `limit` is admitted exactly when it comes after that reset |
| `SlidingLog.CheckPredictsLimit` | src/utils/rate-limit/RateLimitStrategy.ts:12-52 | On any stored key at any instant `check` succeeds exactly when `limit` would |
| `SlidingLog.ReportsTokensLeft` | src/utils/rate-limit/RateLimitStrategy.ts:60-97 | On every run with a clock that never goes back, success, remaining tokens, limit, reset and window of each `check` and `limit` follow from the admitted timestamps in the closed window |
| `SlidingLog.FutureStampsExpire` | src/utils/rate-limit/RateLimitStrategy.ts:32-37 | A `limit` whose clock went back keeps the timestamps ahead of it and lets the whole key expire after as many seconds as the window has milliseconds |
| `BucketLimiter.SlidingWindow.RunCheck` | src/utils/rate-limit/RateLimitStrategy.ts:106-133 | The check script and its wrapper: the weighted refusal test, the tokens left and the reset, with the store unchanged |
| `BucketLimiter.SlidingWindow.RunLimit` | src/utils/rate-limit/RateLimitStrategy.ts:134-163 | The acquire script and its wrapper: refusal, or an increment whose expiry is set on the first one only |
| `BucketLimiter.BucketBound` | src/utils/rate-limit/RateLimitStrategy.ts:134-163 | In every run a bucket admits at most `tokens` calls, whatever the previous counter holds |
| `BucketLimiter.IntervalBound` | src/utils/rate-limit/RateLimitStrategy.ts:134-163 | In every run a half-open interval of the window's length admits at most twice `tokens` |
| `BucketLimiter.CurrentReadIsAdmitted` | src/utils/rate-limit/RateLimitStrategy.ts:156-161 | In every run a counter outlives its bucket: what a call reads from the current key is the number of calls the bucket has admitted |
| `BucketLimiter.PreviousExpiredIffLongWindow` | src/utils/rate-limit/RateLimitStrategy.ts:195-202 | The previous key read has expired on every run exactly when the window is at least 34 ms |
| `BucketLimiter.FixedWindowIffLongOrSingle` | src/utils/rate-limit/RateLimitStrategy.ts:151-202 | Every `limit` of every run is answered, remaining tokens and reset included, like a fixed-window counter exactly when the window is at least 34 ms or the limit is one |
| `BucketLimiter.AdmittedIsCappedAttempts` | src/utils/rate-limit/RateLimitStrategy.ts:151-162 | For those windows a bucket admits its first `tokens` attempts and no other |
| `BucketLimiter.CheckPredictsLimitIffNonZero` | src/utils/rate-limit/RateLimitStrategy.ts:113-162 | `check` foretells `limit` on every store and instant exactly when the limit is not zero |
| `BucketLimiter.AnswersFollowAdmissions` | src/utils/rate-limit/RateLimitStrategy.ts:106-220 | On every run and for every window, each answer in full follows from the calls admitted in the current bucket and in the one `window` buckets back, the latter for two windows and a second after its first |
| `SingleFlight.CacheClient.ResumeGetCache` | src/utils/redis-client.ts:22-34 | `getCache` after its GET: the in-flight promise on a miss, else the parsed value or null |
| `SingleFlight.CacheClient.ResumeWrapCall` | src/utils/redis-client.ts:72-84 | `wrap` after `getCache`: return the value, join the promise in flight, or start `fn` and publish its promise; a `fn` that throws at once leaves no entry |
| `SingleFlight.CacheClient.ResumeLeaderCall` | src/utils/redis-client.ts:84-93 | When the own `fn` settles the key leaves the map in every case and a truthy value goes on to the SET |
| `SingleFlight.CacheClient.SetCacheFunction` | src/utils/redis-client.ts:38-51 | `setCache` with a function publishes its promise without looking at the map |
| `SingleFlight.CacheClient.StoreValue` | src/utils/redis-client.ts:54-57 | The SET stores the value of its call under the call's key |
| `SingleFlight.CacheClient.DeleteCache` | src/utils/redis-client.ts:60-63 | A delete removes the key from Redis and touches nothing else |
| `SingleFlight.AtMostOneFlight` | src/utils/redis-client.ts:22-94 | In every interleaving, on a key nobody passes to `setCache` with a function, at most one `fn` runs at a time and the map holds the key exactly while its leader is in flight, failures included |
| `SingleFlight.SingleFlightIffNeverSetWhileLed` | src/utils/redis-client.ts:38-94 | In every run the map holds the key exactly while its only leader is in flight, at every moment, if and only if `setCache` is never called with a function on the key while it is led |
| `SingleFlight.FunctionSetBreaksSingleFlight` | src/utils/redis-client.ts:38-51 | What such a call can lead to: two `fn` calls on one key at once, and a leader whose entry is gone |
| `SingleFlight.ValuesComeFromTheirKey` | src/utils/redis-client.ts:22-94 | In every interleaving of all cache functions, whatever a call returns or throws was produced by a `fn` call of the same key, supplied to `setCache` for it, or is an error its calls met; Redis only holds such values, and only truthy ones on a key nobody passes to `setCache` from outside |
| `SingleFlight.StoredValueIsReturned` | src/utils/redis-client.ts:54-94 | Once a value other than null is stored, in every continuation without an eviction of or a SET on the key, a `wrap` on it that starts later runs no `fn`, and if it ends it returns that value or throws an error of its own Redis command |
| `SingleFlight.UndisturbedReaderHits` | src/utils/redis-client.ts:54-93 | A flight's truthy value is stored, and the next call on the key, undisturbed, returns it |
| `CacheAnswers.JoinedGetsTheOutcome` | src/utils/redis-client.ts:25-28 | In every interleaving, a `wrap` that awaits another call's promise, in `getCache` or in `wrap`, runs no `fn` and ends with exactly what the promise became; the one exception is a null joined in `getCache` |
| `CacheAnswers.SettledFlightIsPassedOn` | src/utils/redis-client.ts:72-79 | Once the joined promise is settled, the call's next steps end it with that outcome, unless it is a null joined in `getCache` |
| `CacheAnswers.NullLooksInTheMap` | src/utils/redis-client.ts:74-84 | With null from `getCache`, `wrap` looks in the map once more: it joins the flight there or starts and publishes its own |
| `CacheAnswers.MissGoesToTheMap` | src/utils/redis-client.ts:24-33 | A GET without a value leads to the flight in the map or to null, and a null from a joined flight is passed on |
| `CacheAnswers.LeaderGetsItsOutcome` | src/utils/redis-client.ts:80-93 | In every interleaving a call that leads ends with exactly what its own `fn` became, or with an error of its own SET |
| `CacheAnswers.FlightEnds` | src/utils/redis-client.ts:38-58 | The end of a flight takes its key out of the map and stores its value: for `setCache` any, for `wrap` a truthy one, and none with a lifetime of zero |
| `CacheAnswers.PlainSetStores` | src/utils/redis-client.ts:51-58 | A plain `setCache` stores its value unless its lifetime is zero |
| `CacheAnswers.SetThenWrap` | src/utils/redis-client.ts:51-93 | What a plain `setCache` stored, other than null, is what the next undisturbed `wrap` returns |
| `CacheAnswers.DeleteTakesOneKey` | src/utils/redis-client.ts:60-63 | A delete removes its key and leaves every other key's value |
| `CacheAnswers.DeletedIsGone` | src/utils/redis-client.ts:60-63 | After a delete, in every continuation in which nothing is stored for the key, Redis does not hold it, the GET of a later `wrap` gives nothing, and what that `wrap` returns came from a `fn` through a promise |
| `Unescape.PassesAreOneScan` | src/utils/string.utils.ts:40-49 | For every text and every well-ordered rule list, sequential global replacement equals one simultaneous scan |
| `Unescape.RulesAreWellOrdered` | src/utils/string.utils.ts:41-48 | The eight rules are well ordered: no entity starts another and none contains a character written earlier |
| `Unescape.UnescapeDecodes` | src/utils/string.utils.ts:40-49 | `unescape` decodes every text as one left-to-right scan does |
| `Unescape.AmpersandMustComeLast` | src/utils/string.utils.ts:48 | With `&amp;` first, a doubly escaped text is decoded twice |
| `Unescape.DecodeUndoesEncode` | src/utils/string.utils.ts:40-49 | Decoding undoes character-by-character escaping for every well-ordered list that escapes the ampersand |
| `Unescape.UnescapeUndoesEscape` | src/utils/string.utils.ts:40-49 | `unescape` gives back every text whose eight characters were escaped |
| `Unescape.EscapesOf` | src/utils/string.utils.ts:41-48 | Which entity stands for which of the eight characters |
| `Unescape.OthersStay` | src/utils/string.utils.ts:41-48 | Every other character stands for itself |
| `OrderStatistic.DeltaIsMembershipChange` | src/utils/orderStatistic.ts:143-165 | For every table, order and target step, the delta of a counter is the change of the order's membership in that group, and a cancel is counted exactly without an appeal admin |
| `OrderStatistic.CancelStepsAreUncounted` | src/utils/orderStatistic.ts:208-221 | A cancel step is in no counted group of any table, so leaving out the plus delta loses nothing |
| `OrderStatistic.IncrementalIsRecount` | src/utils/orderStatistic.ts:143-165 | For any population, table and run, the counters equal the recount by first match and the cancel counter has grown by the unappealed cancels |
| `OrderStatistic.FirstMatchIsMembership` | src/utils/orderStatistic.ts:11-140 | In all tables first match and membership coincide, except for the operator's two steps that match WAITING_USER first and belong to APPEAL too |
| `OrderStatistic.TablesOverlapOnlyForOperator` | src/utils/orderStatistic.ts:11-140 | Groups of one table share a step only in the operator's tables, only WAITING_USER with APPEAL, and only the two steps |
| `OrderStatistic.FirstMatchIndex` | src/utils/orderStatistic.ts:236-243 | The group returned for a step is that of the first entry listing it, or none |
| `OrderStatistic.OperatorByNumber` | src/utils/orderStatistic.ts:11-140 | The operator's group of every step by its number |
| `OrderStatistic.SupporterByNumber` | src/utils/orderStatistic.ts:11-140 | The steps a supporter counts as appeals, by number |
| `OrderStatistic.RolesAgree` | src/utils/orderStatistic.ts:11-140 | An order waits for its user exactly where the operator's first match is WAITING or WAITING_USER; otherwise user, operator and manager agree, and every numbered step has a group |
| `OrderStatistic.CancelsByNumber` | src/utils/orderStatistic.ts:208-233 | A move is counted as cancelled exactly when it goes to one of the two cancel steps without an appeal admin |
| `StatisticScript.StatisticsTable.Recount` | scripts/statistic.js:170-214 | Reset, query and write-back leave exactly the recount in every operator's row, zero for one without live orders |
| `StatisticScript.StepInIsGroup` | scripts/statistic.js:137-168 | The script's lists select an order exactly when its first match is the group, or it is at a doubly listed step and the group is APPEAL |
| `StatisticScript.ScriptAgainstIncremental` | scripts/statistic.js:182-199 | After any run the incremental counters differ from the script's exactly by the dead orders at counted steps and the live doubly listed ones |
| `StatisticScript.LiveOrdersAgree` | scripts/statistic.js:182-199 | Over live orders both waiting counters agree and the script's appeal counter is larger by exactly the doubly listed orders |
| `StatisticScript.LiveIsNotOver` | scripts/statistic.js:188-198 | The live orders are those neither completed nor cancelled (statuses 4 and 5 in lines 28 and 35) |
| `TransactionCheck.ValidateTronTransaction` | src/api/workers/CryptoTransactionWorker.ts:238-258 | The loop is valid exactly when every TRON condition holds, and otherwise reports the code of the first that fails |
| `TransactionCheck.EthResultIsConjunction` | src/api/workers/CryptoTransactionWorker.ts:434-602 | A mined receipt is valid exactly when the status, time, addresses, amount and every transfer log are right |
| `TransactionCheck.TronAcceptance` | src/api/workers/CryptoTransactionWorker.ts:238-328 | A TRON transaction is accepted exactly when status, time, amount and the wallets of its trade type are right, else with the code of the first wrong one, all written out |
| `TransactionCheck.NativeAcceptance` | src/api/workers/CryptoTransactionWorker.ts:468-511 | A native payment is accepted exactly when success, time, both wallets of its trade type, contract and hundredths of the amount are right |
| `TransactionCheck.TokenAcceptance` | src/api/workers/CryptoTransactionWorker.ts:513-578 | A token payment is accepted exactly when success, time and receiver are right and every logged transfer pays the exact amount between the wallets of its trade type |
| `TransactionCheck.RefusalCodes` | src/api/workers/CryptoTransactionWorker.ts:468-602 | The code of every refused receipt, including that a token payment reports its first transfer's code even if another one is wrong |
| `TransactionCheck.HundredthsAgree` | src/api/order/models/Order.ts:352-357 | Two amounts agree when no multiple of a hundredth lies above one and at or below the other |
| `TransactionCheck.TronTimeout` | src/api/workers/CryptoTransactionWorker.ts:224-233 | Without a succeeded row a TRON tick past the timeout fails exactly when the last code is not the node's error, else reports unknown; before it, it waits |
| `TransactionCheck.EthVerdictIsTable` | src/api/workers/CryptoTransactionWorker.ts:396-432 | The ETH verdict is a table over the set of occurring row statuses and the timeout |
| `TransactionCheck.EthVerdictIgnoresOrderAndCount` | src/api/workers/CryptoTransactionWorker.ts:396-432 | Permuting or repeating RPC rows never changes the ETH verdict |
| `TransactionCheck.TimeoutDecides` | src/api/workers/CryptoTransactionWorker.ts:222-233 | Past the timeout no verdict waits, before it TRON never fails, and a verdict is a success exactly when a row succeeded |
| `TransactionCheck.TimeoutOnlyEndsWaiting` | src/api/workers/CryptoTransactionWorker.ts:396-414 | A verdict given before the timeout is the verdict given after it |
| `TransactionWorker.Worker.SetTransaction` | src/api/workers/CryptoTransactionWorker.ts:132-140 | A submission puts a new object under its id, replacing the old one |
| `TransactionWorker.Worker.FilterPending` | src/api/workers/CryptoTransactionWorker.ts:162-164 | The filter yields exactly the pending objects of the map |
| `TransactionWorker.Worker.CheckTransactionStatus` | src/api/workers/CryptoTransactionWorker.ts:159-170 | A tick clears `done` and takes exactly the pending transactions of the map |
| `TransactionWorker.Worker.OnInterval` | src/api/workers/CryptoTransactionWorker.ts:91-95 | An interval firing starts a tick only when the last one is done |
| `TransactionWorker.Worker.ConcludeReceipt` | src/api/workers/CryptoTransactionWorker.ts:396-414 | Both receipt checks after their last row answer (for TRON see lines 222-233): the status, fail code and order service call of the verdict, or nothing |
| `TransactionWorker.Worker.CheckAndCleanProcess` | src/api/workers/CryptoTransactionWorker.ts:450-458 | The entry of the id goes on data or on an error other than a failed system update, and stays otherwise |
| `TransactionWorker.Worker.FinishTick` | src/api/workers/CryptoTransactionWorker.ts:171-175 | The tick ends when all checks have settled |
| `TransactionWorker.TicksNeverOverlap` | src/api/workers/CryptoTransactionWorker.ts:75-97 | In every run at most one tick runs, every check belongs to it and `done` is false meanwhile |
| `TransactionWorker.TickChecksExactlyPending` | src/api/workers/CryptoTransactionWorker.ts:159-173 | In every run a new tick checks exactly the map's pending transactions, none of them left over |
| `TransactionWorker.AnswerDecidesItsRow` | src/api/workers/CryptoTransactionWorker.ts:200-217 | An answer touches only its row, which succeeds exactly when the answer passes every check; a node with nothing yet changes a row only for TRON past the timeout (the ETH rows are lines 353-394) |
| `TransactionWorker.VerdictSafety` | src/api/workers/CryptoTransactionWorker.ts:354-417 | In every run a map entry gets at most one verdict, SUCCEED only if an answer passed every check or the object came with a succeeded row, FAILED never while a row is SUCCEED |
| `TransactionWorker.ArrivedSuccessIsTrusted` | src/api/workers/CryptoTransactionWorker.ts:396-398 | For every order and id, an object submitted with a succeeded row gets SUCCEED in some run without a passing answer |
| `TransactionVerdicts.TronDecision` | src/api/workers/CryptoTransactionWorker.ts:222-233 | In every run a TRON check without a succeeded row decides nothing before the timeout; past it, it fails the transaction, with the code left, exactly when the last answer that changed a row was no error of the node, and else reports it unknown |
| `TransactionVerdicts.EthDecision` | src/api/workers/CryptoTransactionWorker.ts:396-414 | In every run the status, the code and the unknown report of an ETH check without a succeeded row follow from its row statuses, the timeout, the last refusal in this check and the last code reported |
| `TransactionVerdicts.SucceedsIffRowSucceeded` | src/api/workers/CryptoTransactionWorker.ts:396-398 | In every run a check gives SUCCEED exactly when a row has succeeded, and keeps the code |
| `TransactionWorker.CheckBeginsWithItsRows` | src/api/workers/CryptoTransactionWorker.ts:330-342 | Pending rows are created exactly for a transaction without rows at its sending step, and the check waits for exactly its rows |
| `TransactionWorker.UpdateEndsCheck` | src/api/workers/CryptoTransactionWorker.ts:450-458 | The entry goes on data or on any error but the failed system update, and stays otherwise; a throw never removes it |
| `TransactionWorker.StopEndsTicks` | src/api/workers/CryptoTransactionWorker.ts:100-112 | Stopping leaves the running tick alone, and in every continuation no further check begins |
| `TransactionWorker.VerdictIsFinal` | src/api/workers/CryptoTransactionWorker.ts:162-164 | From its verdict on, an object never changes, in any continuation of the run |
| `TransactionWorker.VerdictsPerSubmission` | src/api/workers/CryptoTransactionWorker.ts:132-175 | In every run an id never collects more verdicts in all than submissions in all |
| `TransactionWorker.VerdictsBetweenSubmissions` | src/api/workers/CryptoTransactionWorker.ts:132-175 | Over any stretch of any run without a submission of the id, its verdicts are those of objects judgeable at the start, at most two, and if two, of the object in the map and of an older one with an undecided check |
| `RepeatedVerdicts.TwoVerdictsIffOlderCheck` | src/api/workers/CryptoTransactionWorker.ts:132-175 | From any moment of any run, some continuation without a submission of the id gives it two verdicts if and only if at that moment an older object of it is under a check that can still judge it, the interval runs, and the object in the map is pending and judgeable |
| `RepeatedVerdicts.HopelessStays` | src/api/workers/CryptoTransactionWorker.ts:159-175 | An object that neither its running check nor a later tick can judge gets no verdict in any continuation without a submission of its id |
| `RepeatedVerdicts.Drain` | src/api/workers/CryptoTransactionWorker.ts:166-172 | From any state whose checks are well formed, answers and failures exist that end every running check and touch nothing else |
| `TransactionWorker.TwoVerdictsAfterSubmission` | src/api/workers/CryptoTransactionWorker.ts:132-175 | For every order and id some run gives two verdicts after the last submission |
| `TransactionWorker.RunOneCheck` | src/api/workers/CryptoTransactionWorker.ts:162-170 | In every run at most one object of an id is being checked |
| `TransactionWorker.TimeoutConcludes` | src/api/workers/CryptoTransactionWorker.ts:222-233 | In every run a check decided past the timeout reaches the order service, and before it TRON never fails |
| `TransactionWorker.EntryIsLatestSubmission` | src/api/workers/CryptoTransactionWorker.ts:132-140 | In every run the map holds an id exactly from a submission to the next cleaning of that id, and then its newest object |
| `TransactionWorker.CleaningDropsNewerSubmission` | src/api/workers/CryptoTransactionWorker.ts:450-458 | Cleaning removes another object than the checked one exactly when the id was submitted again, which orphans that object |
| `TransactionWorker.OrphansStay` | src/api/workers/CryptoTransactionWorker.ts:159-175 | An object neither in the map nor being checked is never checked or changed again |
| `TransactionWorker.ResubmissionCanBeLost` | src/api/workers/CryptoTransactionWorker.ts:450-458 | For every order and id some run orphans a resubmitted pending object |
| `TransactionWorker.FailedUpdateStrandsEntry` | src/api/workers/CryptoTransactionWorker.ts:450-458 | When the update of a judged transaction in the map throws or brings no cleaning result, its entry stays, unchanged and unchecked, in every continuation without a submission of its id |
| `AppealPick.AppealDesk.AcquireLock` | src/utils/redlock.ts:38-40 | Getting the lock of an appeal |
| `AppealPick.AppealDesk.ReleaseLock` | src/utils/redlock.ts:45-48 | The lock is released however the callback ended |
| `AppealPick.AppealDesk.PickLoaded` | src/api/appeal/usecase/PickAppealUseCase.ts:19-25 | A pick stops on a missing or taken appeal, else counts |
| `AppealPick.AppealDesk.PickCounted` | src/api/appeal/usecase/PickAppealUseCase.ts:26-31 | A pick stops at the limit, else writes |
| `AppealPick.AppealDesk.CancelLoaded` | src/api/appeal/usecase/CancelAppealSessionUseCase.ts:16-22 | A session cancel stops on a missing or free appeal, else clears it |
| `AppealPick.AppealDesk.SetAdminSupporter` | src/api/appeal/services/AdminAppealService.ts:55-57 | The write sets or clears the admin of that appeal only |
| `AppealPick.AppealDesk.Close` | src/api/appeal/services/AdminAppealService.ts:33-37 | Closing marks the appeal closed and keeps its admin unless the payload names one |
| `AppealPick.UseCaseAlone` | src/api/appeal/usecase/PickAppealUseCase.ts:17-39 | An undisturbed pick, or session cancel (its use case is lines 14-31 of its own file), gives exactly the result its appeal and count call for, sets or clears that appeal's admin only on success, changes nothing else and frees its lock |
| `AppealPick.CancelUndoesPick` | src/api/appeal/usecase/CancelAppealSessionUseCase.ts:14-31 | A session cancel after a successful pick restores every appeal |
| `AppealPick.ResultTellsTheWrite` | src/api/appeal/usecase/PickAppealUseCase.ts:17-39 | In every interleaving a use case reports success exactly when its write was executed, and fails exactly when a command failed or it got no lock |
| `AppealPick.OpenedCanBePicked` | src/api/appeal/usecase/PickAppealUseCase.ts:19-32 | A new appeal is free: an admin below the limit who picks it undisturbed holds one more |
| `AppealPick.PickBound` | src/api/appeal/usecase/PickAppealUseCase.ts:17-39 | In every interleaving an admin with at most C picks at once never holds more than limit - 1 + C unclosed appeals |
| `AppealPick.PickBoundIsReached` | src/api/appeal/usecase/PickAppealUseCase.ts:26-32 | For every limit and every C some interleaving reaches that bound |
| `AppealPick.PickTakesOnlyFreeAppeals` | src/api/appeal/usecase/PickAppealUseCase.ts:18-32 | In every interleaving the locks are held exactly by the use cases inside them, one per appeal and none by a finished one, and a pick writes only over no admin or a closed appeal |
| `AppealPick.PickOverwritesIffDecidedInside` | src/api/appeal/usecase/PickAppealUseCase.ts:19-32 | In every interleaving the appeal a pick writes has an admin exactly when a decision naming one committed on it since the pick loaded it, and that admin is the one the latest such decision named |
| `AppealPick.CancelClearsOtherIffDecidedInside` | src/api/appeal/usecase/CancelAppealSessionUseCase.ts:16-23 | In every interleaving a session cancel clears another admin than the one it saw exactly when a decision naming another one committed since the load, and then that one |
| `AppealPick.CloseInsidePickIsOverwritten` | src/api/appeal/usecase/PickAppealUseCase.ts:19-32 | It happens: a close inside a pick loses its admin |
| `TwoFactor.TwoFactorStore.ResumeGenerate` | src/api/auth/services/TwoFactorAuthService.ts:36-60 | `generateSecret` after its first read returns a stored secret or goes on to insert a fresh one |
| `TwoFactor.TwoFactorStore.Insert` | src/api/auth/services/TwoFactorAuthService.ts:62-75 | The insert creates the row or leads to the second read |
| `TwoFactor.TwoFactorStore.ResumeRegister` | src/api/auth/services/TwoFactorAuthService.ts:78-90 | `register` refuses a row without secret and otherwise writes the row back as ENABLED |
| `TwoFactor.TwoFactorStore.ResumeUnregister` | src/api/auth/services/TwoFactorAuthService.ts:96-108 | `unregister` refuses a row that is not ENABLED and otherwise writes it back as DISABLED |
| `TwoFactor.TwoFactorStore.Update` | src/api/auth/services/TwoFactorAuthService.ts:91-93 | The update replaces an existing row by the record read earlier |
| `TwoFactor.CallAlone` | src/api/auth/services/TwoFactorAuthService.ts:36-112 | What each undisturbed operation stores and answers, on every row; `generateSecret` on a row without a secret throws and leaves it |
| `TwoFactor.OneSecret` | src/api/auth/services/TwoFactorAuthService.ts:36-76 | In every interleaving all `generateSecret` calls that return give the one stored, non-empty secret |
| `TwoFactor.SecretIsPermanent` | src/api/auth/services/TwoFactorAuthService.ts:36-112 | From any moment of any run on, a stored secret never changes and a status that left UNAUTHORIZED never returns |
| `TwoFactor.EnabledHasSecret` | src/api/auth/services/TwoFactorAuthService.ts:86-91 | In every interleaving an enabled row has a secret |
| `TwoFactor.DuplicateThrowsIffNoSecret` | src/api/auth/services/TwoFactorAuthService.ts:64-73 | After a duplicate the second read returns the stored secret, and throws exactly when the row has none |
| `TwoFactor.AnswerTellsTheUpdate` | src/api/auth/services/TwoFactorAuthService.ts:78-112 | In every interleaving `register` and `unregister` succeed exactly when their update was executed and throw exactly when a command failed |
| `TwoFactor.RowAppearsByInsert` | src/api/auth/services/TwoFactorAuthService.ts:54-63 | A row only appears through the insert of a drawn secret, and a failed command changes nothing |
| `RawSql.BuildRawSql` | src/utils/sql.util.ts:4-26 | The loop substitutes the parameters' renderings one after the other, and positionally when they are plain |
| `RawSql.SequentialIsPositional` | src/utils/sql.util.ts:7-24 | For every query and plain renderings, first-mark replacement gives the i-th mark the i-th rendering |
| `RawSql.FaithfulIffPlain` | src/utils/sql.util.ts:7-24 | A rendering lands unchanged in every query, before any plain ones, exactly when it has no mark and no expanded pair |
| `RawSql.ScalarsRender` | src/utils/sql.util.ts:8-23 | Text is quoted and otherwise unchanged, the other scalars are bare, `undefined` replaces nothing |
| `RawSql.ArraysRender` | src/utils/sql.util.ts:12-16 | An array is its elements with commas, each like a scalar |
| `RawSql.PairsBecome` | src/utils/sql.util.ts:9 | What each expanded dollar pair of a parameter becomes |
| `RawSql.MarkInParameterIsFilled` | src/utils/sql.util.ts:9 | A mark inside a parameter takes the place of the next placeholder |
| `RawSql.DollarInParameterIsExpanded` | src/utils/sql.util.ts:9 | A dollar pair inside a parameter is rewritten |
| `Retry.RetryableErrors` | src/utils/db.util.ts:21-27 | The database errors tried again, by number and state, and that no other error ever is |
| `Retry.RandInt` | src/utils/db.util.ts:12 | A draw from [0, 1) gives an integer between both bounds |
| `Retry.StopsAtFirstFinalOutcome` | src/utils/db.util.ts:16-45 | At most max(maxAttempts, 0) + 1 calls; all before the last failed retryably, the caller gets the last outcome, and it is last for a stated reason |
| `Retry.FirstSuccessIsReturned` | src/utils/db.util.ts:16-45 | A success within the allowed calls after retryable failures is returned |
| `Retry.TotalWait` | src/utils/db.util.ts:28-32 | n retries request delays of between 100 (2^(n+2) - 4) + 300 n and 100 (2^(n+2) - 4) + 1000 n ms in total |

## Left out

- Redis, the database and the RPC nodes themselves: every command is one atomic step, and answers are arbitrary.
- Redlock is a mutex that does not expire; running out of retries is a failed call.
- Redis and the application share one clock in the limiters; the Lua and JavaScript floating-point arithmetic of the
  weight is exact over the reals.
- A window of zero milliseconds in the bucket limiter, which divides by zero.
- JSON encoding in the cache is the identity, so `undefined` and function values are not covered; the key prefix of the
  environment, the sorted-set helpers and the wildcard delete as one operation are left out (its deletes are single
  evictions at any time).
- TotalWait: sums the delays requested; from the 24th retry on a delay exceeds 2^31 - 1 ms, which the timers of Node.js
  cut to 1 ms, so the time that then passes is shorter.
- Which of several answers of one tick comes last, and so leaves its fail code, is the order of the events.
- The cap of 50 concurrent checks: the model allows every schedule of the checks.
- What the order services do with a verdict: their result is arbitrary, and so is what the row-creating service returns.
- The order lifecycle, the post amounts, and how deltas are written: a plus is +1 and a minus is -1.
- The money effects and transactions of the appeal decisions, and the dates set by closing or extending an appeal.
- The QR code addresses, token verification and status cache of two-factor authentication.
- User types without a group table, `getTotalStatistic` and `isCancelOrderByAppeal`: plain arithmetic or a finite test.
- The first block of the script, which sums totals.
- Amounts, addresses and block times of transactions are compared as exact values: BigNumber, moment and the decoding
  of receipts are not modelled.
- Controllers, loaders, subscribers, countdown workers, notifications, chat, reports, file formats, sessions and guards:
  plumbing with no property that spans operations.

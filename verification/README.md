# Live sportsbook: verified model

This project models the parts of a live sportsbook where a mistake costs money or leaks state,
and proves what they promise. It covers the pricing of accumulator products, boosts and
operator-made markets, the quote ladder, the odds fan-out from gateway to browser, the bet slip,
the ComboZilla carousel, the SlotZilla game and its calibrator, the server-clock estimator, and
the canonical string forms of money and specifiers.

`dafny verify dfyconfig.toml` checks everything.

## How it is organised

| files | what they hold |
|---|---|
| `WinVectors`, `PoissonBinomial`, `Products`, `TippotSteps` | Tiple and Tippot. Win/loss vectors are enumerated outright; the convolution loop is shown to compute their distribution, and the payout schedule is averaged over them |
| `Ladder`, `OddsText`, `BettorAdjustment` | the banded quote ladder and its second copy, price text, per-bettor adjustment |
| `Netwinstable`, `Boosts`, `CustomMarket`, `CustomPrices`, `FirstMoney` | the key solver, market and selection boosts, operator markets with liability trading |
| `RefIndex`, `TokenBucket`, `GatewayState`, `Gateway`, `GatewayRuns` | the WebSocket gateway: state, invariant, handlers, whole runs |
| `LiveLink`, `LiveRuns`, `LiveRecovery`, `LiveConnection` | the browser's shared connection with the gateway's end of every socket: transitions, whole runs, what is sent and how a lost connection comes back, and the object itself |
| `SlotReels`, `SlotCalibrator` | SlotZilla windows, reels and lines; the multiplier fit |
| `ComboSearch`, `ComboCarousel`, `ComboCards`, `ComboPromises` | ComboZilla's search, its carousel, what every carousel guarantees, and its tiers in the product's own numbers |
| `BetSlip`, `BetSlipActions`, `BetSlipRuns` | the slip's transitions and store; what each action keeps and changes; consent, quotes and persistence over runs |
| `ServerClock`, `Specifiers`, `Money` | the clock estimator and the two printer/parser pairs |
| `Options`, `Numbers`, `Permutations`, `RealArith`, `RealSums`, `Strings`, `Decimals`, `StableSort` | shared definitions and arithmetic |

## Conventions and assumptions

- Floating point is exact `real` arithmetic. Prices on the storage grid are integers in units of
  0.0001, money is an unbounded integer. The ladder keeps both of its epsilons; they are part of
  its exact conditions.
- `null` and `undefined` are `Option.None`. Where the source tests truthiness, the empty string is
  treated the same way and the model says so.
- Gateway: Redis subscribe and unsubscribe succeed in order; no message event reaches a client
  after its teardown; the clock never runs backwards. Iteration order over sets is arbitrary. A
  client record stays in `objects` after teardown, so that "released once" can be stated.
- Browser: frames on one socket arrive in order, and every frame passes the gateway's rate limit.
  The gateway may tear its end of any socket down at any time, before the browser hears of it.
  `RunEndToEnd` asks that no prefix of the run covers more than 100 matches.
- Bet slip: each market belongs to one match, and the stored JSON reads back as it was written.
- Library calls whose result the source only consumes are parameters: reading a decimal, JSON
  encoding and decoding, the cube root, the locale's string comparison, the known currencies.

## What the code does that its comments do not say

- The solver's header promises convergence for every target between 0 and the number of outcomes.
  The factor is capped at 2^30 on either side; `ApplyNetwinstableKey` states exactly which targets
  are met and `UnreachableTarget` gives a book and a target that no factor meets.
- A selection boost can take the book key to exactly 1.0, although a comment says it never can:
  `NeverPastFair` says when and `ExactlyFair` is such a book.
- The "strictly increasing" multipliers are so for every ticket exactly when
  (n - 1)(1 + margin) <= 10000. That covers every ticket of up to twelve legs, the product's own
  cap, which the pricing function does not itself enforce.
- The two copies of the ladder disagree on some prices below 1.01 (`CopiesAgreeIff`).
- A quote can exceed its price by the rung epsilon, never on a stored price (`NeverRaisesIff`).
- A gateway user whose id is the empty string is counted in and never counted out, because
  teardown tests the id for truthiness: `UserIndexIff` has the exact condition and `EmptyIdStays`
  a run of two events that shows it.
- A socket opened while the previous one is closing is forgotten when the previous one's close
  event arrives (`OrphanedSocket` is such a run; `NeverForgottenIff` says exactly which runs are
  free of it), so only the socket the connection holds is claimed in step.
- A reel is independent of arrival order exactly when the events tied at the top look alike;
  without ids they need not (`ArrivalOrderMatters`). Ids with leading zeros are misordered
  (`LeadingZeroMisorders`; `CanonicalIff` is exact).
- A builder opened on the empty match id is stored but treated as off (`EmptyMatchIdBreaks`,
  `AllOnMatchIff`), a quote survives an added leg when builder mode was entered without a match
  (`StaleQuoteWithoutMatch`, `QuoteDroppedIff`), and leaving the builder by the mode switch keeps all of its
  same-match legs (`LeavingKeepsBoth`, `OneEachIff`). A quote that answers late is stored
  all the same (`LateQuoteIsStale`, `LateQuoteIff`).
- Three boost-eligible matches in one sport are said to fill all four ComboZilla cards. The card cap
  limits that: `AllFourIff` has the exact condition on the pool, `ThreeMatchesOneCard` a pool that
  gets one card.
- A price-drift tick is said never to change what the slip stores. It does the first time, when
  the leg had no explicit active flag (`FirstDriftIsStored`; `TickStoresNothingIff` is exact).
- Money on an outcome is said to shorten its price. On a leash, with three or more outcomes, it can
  lengthen it (`LeashedLengthens`; `MoreMoneyShortensIff` is exact).
- The first money on a book can lower the backed outcome's probability when another outcome's base
  sits under the minimum (`FirstMoneyCanLower`; `FirstMoneyIff` is exact).

## Model

| member | source | states |
|---|---|---|
| `WinVectors.VectorsEnumerate` | packages/types/src/products.ts:135-137 | the reference for "expected payout": 2^n win/loss vectors, none listed twice |
| `WinVectors.VectorsComplete` | packages/types/src/products.ts:135-137 | every win/loss vector is among those averaged over |
| `PoissonBinomial.MeanIsWeighted` | packages/types/src/products.ts:154-169 | averaging any payout table over all 2^n vectors equals weighting it by the convolution recurrence |
| `PoissonBinomial.PmfIsExactly` | packages/types/src/products.ts:154-169 | the recurrence at k is the sum, over vectors with k wins, of the product of win and lose probabilities |
| `PoissonBinomial.TailIsAtLeast` | packages/types/src/products.ts:171-176 | the suffix sum at k is the chance of at least k wins |
| `PoissonBinomial.TotalIsOne` | packages/types/src/products.ts:154-176 | the distribution sums to 1 |
| `PoissonBinomial.PmfPermutation` | packages/types/src/products.ts:154-169 | rearranging the legs leaves the distribution unchanged |
| `Products.FloorTo` | packages/types/src/products.ts:32-37 | the floor to a decimal scale is never negative, at most its argument and within one unit of it |
| `Products.Convolve` | packages/types/src/products.ts:154-169 | the nested loops leave in cell k the chance that exactly k legs win |
| `Products.SuffixSums` | packages/types/src/products.ts:171-176 | the descending loop leaves in cell k the chance that at least k legs win |
| `Products.PartialReturn` | packages/types/src/products.ts:178-197 | the double sum swapped one tier at a time: payouts up to m wins plus the mass above, at the level reached, come to m equal shares |
| `Products.ExactReturn` | packages/types/src/products.ts:136-137 | with unrounded multipliers the payout averaged over all win/loss vectors is exactly 1 / (1 + margin) |
| `Products.RoundedReturn` | packages/types/src/products.ts:178-197 | with floored multipliers it is at most that and less than 0.0001 below it |
| `Products.PriceTippot` | packages/types/src/products.ts:139-200 | each input error and its order; otherwise, per tier, P(at least k) rounded to millionths and the floored cumulative payout; the payout averaged over all win/loss vectors, times 10000 + marginBp, is at most 10000 and less than a ten-thousandth of a stake below it; the unreachable-tier error never occurs |
| `Products.BuildTiers` | packages/types/src/products.ts:178-197 | the tier loop computes the floored schedule of all tiers, from the exact at-least-k chances |
| `Products.QuoteIgnoresLegOrder` | packages/types/src/products.ts:139-200 | rearranging the legs leaves every tier unchanged |
| `TippotSteps.PublishedIncreases` | packages/types/src/products.ts:117-122 | the published tiers strictly increase exactly when the floored schedule does |
| `TippotSteps.StrictlyIncreasingIff` | packages/types/src/products.ts:23-26 | for n legs and a margin, multipliers strictly increase for all probabilities if and only if (n - 1)(1 + margin) <= 10000 |
| `TippotSteps.StrictlyIncreasingInBp` | packages/types/src/products.ts:23-26 | the same in basis points: (n - 1) x (10000 + marginBp) <= 100000000 |
| `TippotSteps.CappedTicketIncreases` | packages/types/src/products.ts:9-11 | hence for every ticket of up to twelve legs at every margin from 0 to 200000 basis points |
| `Products.AnyWins` | packages/types/src/products.ts:86-91 | one minus the product of losing chances is Tippot's chance of at least one win |
| `Products.PriceTiple` | packages/types/src/products.ts:72-105 | each input error; otherwise the fair probability is P(at least one), the published hundredths are the most that leave the margin asked for, and the average return times 10000 + marginBp is at most 10000 and less than a hundredth of a stake below it |
| `Ladder.LadderStep` | packages/types/src/odds.ts:110-123 | the step of the first matching band, over the whole line |
| `Ladder.QuoteBounds` | packages/types/src/odds.ts:137-159 | a quote loses less than one step, gains at most the epsilon, and stays at or above 1.01 for prices that are |
| `Ladder.QuoteMonotone` | packages/types/src/odds.ts:137-159 | quoting is monotone across every band boundary |
| `Ladder.QuoteIdempotent` | packages/types/src/odds.ts:137-159 | quoting a quote changes nothing |
| `Ladder.NeverRaisesIff` | packages/types/src/odds.ts:137-159 | a quote is at most its price if and only if the price is not within an epsilon below a rung |
| `Ladder.StoredPriceNeverRaised` | packages/types/src/odds.ts:137-159 | no stored price is raised, and none below 1.01 is moved |
| `Ladder.CopiesAgreeIff` | packages/types/src/custom-events.ts:112-164 | the two ladder copies agree on a price if and only if it is not a sub-1.01 value only the epsilon lifts |
| `Ladder.CopiesDisagree` | packages/types/src/custom-events.ts:206-209 | a price on which they differ |
| `Ladder.CustomQuoteBounds` | packages/types/src/custom-events.ts:153-164 | the second copy exceeds a price by at most the rung epsilon and keeps prices above 1 at 1 or more |
| `OddsText.FormatRoundTrip` | packages/types/src/odds.ts:171-179 | price text, with two to four decimals, reads back as the same price |
| `OddsText.FormatInjective` | packages/types/src/odds.ts:171-179 | two prices print alike only if equal |
| `OddsText.DisplayShowsQuote` | packages/types/src/odds.ts:171-179 | what is shown reads back as the ladder's quote, and showing that again changes nothing |
| `OddsText.DisplayOfNone` | packages/types/src/odds.ts:171-179 | a negative price shows a dash, a zero price 0.00 |
| `BettorAdjustment.LoadCascade` | services/ws-gateway/src/bettor-adjustment.ts:46-108 | filling the scope maps and resolving against them gives, for every event, the rule of the most specific scope that has one |
| `BettorAdjustment.AdjustedAtLeastFloor` | services/ws-gateway/src/bettor-adjustment.ts:119-150 | an adjusted price is never below 1.001 |
| `BettorAdjustment.AdjustedMonotone` | services/ws-gateway/src/bettor-adjustment.ts:119-150 | a more generous rule never gives a shorter price |
| `BettorAdjustment.NeverPastFairOdds` | services/ws-gateway/src/bettor-adjustment.ts:119-150 | a price clear of the epsilons stays at or below 1 / probability if and only if that is at least 1.001; otherwise up to the epsilon |
| `BettorAdjustment.NeverPastFairIff` | services/ws-gateway/src/bettor-adjustment.ts:119-150 | for every raw price and rule the adjusted price stays at or below fair odds, if and only if these are at least 1.001 and not within an epsilon below a rung |
| `BettorAdjustment.AdjustmentReadsBack` | services/ws-gateway/src/bettor-adjustment.ts:119-150 | the text sent reads back as the adjusted price |
| `BettorAdjustment.ScaledByBasisPoints` | services/ws-gateway/src/bettor-adjustment.ts:119-150 | away from ceiling and floor the price sent is the raw price times (10000 + bp) / 10000, less than one ladder step below it and above it by the epsilon at most |
| `BettorAdjustment.CeilingAndPassThrough` | services/ws-gateway/src/bettor-adjustment.ts:119-150 | past fair odds the price sent is the quote of 1 / probability; a zero rule or an unreadable or non-positive price leaves the text alone |
| `Netwinstable.BookKey` | packages/types/src/netwinstable.ts:36-42 | the loop computes the sum of inverse prices above 1 |
| `Netwinstable.KeyDecreasing` | packages/types/src/netwinstable.ts:18-22 | the key falls strictly in the factor, by at most (sum of net wins) x width, and lies between 0 and the number of outcomes |
| `Netwinstable.WalkUp` | packages/types/src/netwinstable.ts:79-125 | the upward walk ends within 30 doublings and brackets the target if and only if the largest factor reaches it |
| `Netwinstable.WalkDown` | packages/types/src/netwinstable.ts:79-125 | the downward walk likewise, for the smallest factor |
| `Netwinstable.Bisect` | packages/types/src/netwinstable.ts:79-125 | every step keeps the target bracketed, the 1e-12 width is always reached within 80 halvings, and from a bracket the key at the result is within (sum of net wins) x 1e-12 of the target |
| `Netwinstable.ScaleKeepsRatios` | packages/types/src/netwinstable.ts:9-13 | scaling keeps every price above 1 and every ratio of net wins |
| `Netwinstable.KeyOfScaled` | packages/types/src/netwinstable.ts:12-16 | the key of the scaled book is the function the solver bisects |
| `Netwinstable.ApplyNetwinstableKey` | packages/types/src/netwinstable.ts:53-126 | the result is the book scaled by one positive factor; every target the walks can bracket is met within (sum of net wins) x 1e-12, every other is approached from its near side |
| `Netwinstable.UnreachableTarget` | packages/types/src/netwinstable.ts:22-23 | a book of two whose key stays at 4/3 or above for every factor the solver can try, so that a target of 1/2 is missed |
| `Boosts.ShavedPrice` | packages/types/src/netwinstable.ts:200-259 | shaving at most half an outcome's probability lowers its key term by exactly the shave and gives between 1x and 2x its price |
| `Boosts.ShavedKey` | packages/types/src/netwinstable.ts:200-259 | the recomputed key is the original minus the sum of applied deltas |
| `Boosts.NeverPastFair` | packages/types/src/netwinstable.ts:200-259 | on a book above fair the boosted key is at least 1, and exactly 1 if and only if the clamped requests use up the headroom |
| `Boosts.ExactlyFair` | packages/types/src/netwinstable.ts:191-195 | a book whose boosted key is exactly 1 |
| `Boosts.BoostSelectionKeys` | packages/types/src/netwinstable.ts:200-259 | deltas, prices and keys as specified; unrequested cells unchanged; every price between 1x and 2x; the guard against a non-positive probability is dead |
| `Boosts.BoostNumbers` | packages/types/src/netwinstable.ts:200-259 | in the operator's percentages: an outcome asks for the smaller of its percentage and half its implied probability; asks within the headroom are granted whole, others share it in proportion, a book at or below fair grants none; what is granted comes off the implied probability |
| `Boosts.BoostCommutesWithOrder` | packages/types/src/netwinstable.ts:200-259 | rearranging a market's outcomes rearranges its boosted prices with them |
| `Boosts.BoostMarketKey` | packages/types/src/netwinstable.ts:261-287 | the book is scaled by one factor of at least 1; the reported key never passes fair, no price shortens, and the delivered key matches the report when the solver reaches it |
| `Boosts.StoredPricesReachable` | packages/types/src/netwinstable.ts:261-287 | on stored prices every market boost target is reachable |
| `CustomMarket.PricedIsDistribution` | packages/types/src/custom-events.ts:284-305 | priced probabilities are positive, each below 1, and sum to 1, with or without liability trading |
| `CustomMarket.LossesDoNotTrade` | packages/types/src/custom-events.ts:287-291 | an outcome with a negative exposure counts as having no money on it |
| `CustomMarket.NotTradedIsBase` | packages/types/src/custom-events.ts:284-305 | without trading, at no strength or without money the market is priced at its normalised base |
| `CustomPrices.TradedProbability` | packages/types/src/custom-events.ts:287-305 | with the leash off and no blend under 0.0001, an outcome is priced strengthBp ten-thousandths of the way from its base to its share of the money |
| `CustomMarket.MoreMoneyNeverLowers` | packages/types/src/custom-events.ts:287-305 | with exposure on the book, more on one outcome never lowers its priced probability, through leash and renormalisation |
| `FirstMoney.FirstMoneyIff` | packages/types/src/custom-events.ts:287-305 | on the operator's own numbers: the first money does not lower the outcome it backs if and only if that outcome's gain, capped by the leash and weighed by the rest of the book, covers the others' lifts to the minimum less their pulls |
| `FirstMoney.UnleashedIff` | packages/types/src/custom-events.ts:287-305 | with the leash off: if and only if the strength times the rest of the book covers the backed outcome's share of the lifts |
| `FirstMoney.FirstMoneyNeverLowers` | packages/types/src/custom-events.ts:287-305 | hence never with no base under the minimum |
| `FirstMoney.FirstMoneyCanLower` | packages/types/src/custom-events.ts:287-305 | a book with a base under the minimum on which it does |
| `CustomPrices.SolvedPriceShortens` | packages/types/src/custom-events.ts:307-314 | of two books solved for one key, shortening one outcome's net win and lengthening the others' never lengthens its solved price |
| `CustomPrices.OthersNeverRise` | packages/types/src/custom-events.ts:287-305 | with the leash off and the backed outcome's blend at or above the minimum, more money on it never raises another's probability |
| `CustomPrices.MoreMoneyShortens` | packages/types/src/custom-events.ts:222-228 | more money on an outcome never lengthens its exact price, with the leash off as above or in any market of two |
| `CustomPrices.SolvedPriceIff` | packages/types/src/custom-events.ts:307-314 | of two books solved for one key, an outcome's price does not lengthen if and only if the second book, with that outcome held at its old price, has no higher a key |
| `CustomPrices.MoreMoneyShortensIff` | packages/types/src/custom-events.ts:222-228 | the same for more money on an outcome, under any leash and for any number of outcomes |
| `CustomPrices.LeashedLengthens` | packages/types/src/custom-events.ts:222-234 | a leashed market of three in which more money raises an outcome's probability and lengthens its price |
| `CustomMarket.DeliveredKeyAtLeast` | packages/types/src/custom-events.ts:342-344 | flooring onto the ladder costs the book at most a billionth of key per outcome |
| `CustomMarket.OrdinaryKeysWithinReach` | packages/types/src/custom-events.ts:306-314 | every key up to 0.99999 per outcome is one the solver meets or exceeds, whatever the probabilities |
| `CustomMarket.PriceCustomMarket` | packages/types/src/custom-events.ts:269-329 | both input errors, the first offender named; otherwise every field of every cell, prices at least 1, and with key = 1 + max(0, overroundBp) / 10000: for every such key up to 0.99999 per outcome the delivered key is at least that, up to solver tolerance, and the solved book's key is within the solver's tolerance of it whenever the solver reaches it |
| `CustomMarket.SameBookKey` | packages/types/src/custom-events.ts:342-344 | the two book keys of the source agree on every book of prices above 1 |
| `RefIndex.CountIsSize` | services/ws-gateway/src/server.ts:546-626 | a refcount equals the size of its member set, for every key |
| `RefIndex.Added` | services/ws-gateway/src/server.ts:546-610 | increment and add keep refcount, index and held pairs in agreement |
| `RefIndex.Removed` | services/ws-gateway/src/server.ts:555-626 | so do decrement and remove, dropping emptied keys |
| `TokenBucket.Conservation` | services/ws-gateway/src/server.ts:450-467 | every processed message is paid for by a token held at the start or refilled since |
| `TokenBucket.RateLimit` | services/ws-gateway/src/server.ts:450-467 | over any stretch of arrivals at most burst + rate x elapsed / 1000 are processed |
| `TokenBucket.PauseServes` | services/ws-gateway/src/server.ts:450-467 | a message 1000 / rate milliseconds after the last one is admitted |
| `TokenBucket.TokensServe` | services/ws-gateway/src/server.ts:450-467 | held tokens serve that many messages, however close together |
| `TokenBucket.BurstServes` | services/ws-gateway/src/server.ts:450-467 | so does a full bucket, or one left alone for burst x 1000 / rate milliseconds, for a whole burst |
| `TokenBucket.DroppedCostsNothing` | services/ws-gateway/src/server.ts:450-467 | a dropped message leaves what the bucket admits later as if it had never come |
| `GatewayState.InvMeans` | services/ws-gateway/src/server.ts:248-269 | the invariant at any key: match index = live holders, user index = live clients signed in (and, under the empty id, departed ones), refcount = size of the index, channel subscribed exactly when it is not empty, address count = live clients, both caps; each departed client released exactly once |
| `GatewayState.UserIndexIff` | services/ws-gateway/src/server.ts:511-514 | a user's index is exactly its live clients if and only if the id is non-empty or no client with the empty id has departed |
| `Gateway.EmptyIdStays` | services/ws-gateway/src/server.ts:511-514 | a user with the empty id connects and leaves, and index, refcount and channel keep it |
| `GatewayState.AcceptInv` | services/ws-gateway/src/server.ts:421-443 | accepting an admissible connection keeps all of it |
| `GatewayState.HoldInv` | services/ws-gateway/src/server.ts:521-532 | so does adding a subscription below the cap |
| `GatewayState.UnholdInv` | services/ws-gateway/src/server.ts:534-540 | so does dropping one |
| `GatewayState.ReleaseInv` | services/ws-gateway/src/server.ts:503-519 | so does a teardown, which counts the client released once more |
| `GatewayState.ReleaseCascades` | services/ws-gateway/src/server.ts:612-626 | a teardown drops a user's cached cascade exactly when nobody else is signed in as that user |
| `Gateway.Server.Upgrade` | services/ws-gateway/src/server.ts:374-443 | a connection is accepted exactly when the live clients, in all and from its address, leave room under both caps, in one step; it starts open, greeted, holding no match, with a full bucket; a refusal changes nothing |
| `Gateway.Server.Subscribe` | services/ws-gateway/src/server.ts:521-532 | the ids held afterwards and the limit error, with the cap tested before each id |
| `Gateway.Server.Unsubscribe` | services/ws-gateway/src/server.ts:534-540 | the ids held afterwards; nothing is sent |
| `Gateway.SubscribeMeans` | services/ws-gateway/src/server.ts:521-532 | ids are held up to the first one that comes while a hundred are held; the error is sent exactly when there is such a one |
| `Gateway.UnsubscribeMeans` | services/ws-gateway/src/server.ts:534-540 | exactly the listed ids are dropped |
| `Gateway.Server.Message` | services/ws-gateway/src/server.ts:450-490 | a message is processed exactly when the bucket admits it; the bucket, the ids held and the reply follow; nobody else changes |
| `Gateway.MessageMeans` | services/ws-gateway/src/server.ts:468-490 | the answer to each kind of message, sent on an open socket only, and what is held after it |
| `Gateway.Server.CleanupClient` | services/ws-gateway/src/server.ts:503-519 | the first teardown releases the client, any further one changes nothing; a cached cascade goes exactly with its user's last live client |
| `Gateway.Server.SendToClient` | services/ws-gateway/src/server.ts:778-805 | closed sockets skipped; those over the buffer limit terminated, torn down and counted; all others sent the frame |
| `Gateway.Server.Evict` | services/ws-gateway/src/server.ts:780-800 | eviction on the spot releases that client alone and is counted once |
| `Gateway.Server.StaleSweep` | services/ws-gateway/src/server.ts:840-851 | exactly the live clients whose sockets are closing or closed are torn down |
| `Gateway.SweepMeans` | services/ws-gateway/src/server.ts:840-851 | a live client survives a sweep, untouched, exactly when its socket is connecting or open |
| `Gateway.Server.ChooseFrame` | services/ws-gateway/src/server.ts:686-752 | lazy parsing and the per-adjustment cache always give the frame computed from scratch for that subscriber |
| `Gateway.FrameMeans` | services/ws-gateway/src/server.ts:686-752 | field by field: a signed-in subscriber with rules gets the published frame with its price adjusted by the match's rule, else the tournament's, else the sport's, else the global one; everyone else, and every frame that cannot be read or placed, the published text |
| `Gateway.Server.DispatchOdds` | services/ws-gateway/src/server.ts:686-752 | every open subscriber within its buffer gets exactly one frame, its own; slow ones are released mid-iteration and counted; cascades follow the users still connected; nobody else is touched |
| `Gateway.Server.Handle` | services/ws-gateway/src/server.ts:421-519 | each event takes the state through its step and keeps the invariant |
| `Gateway.Server.Run` | services/ws-gateway/src/server.ts:421-626 | over any sequence of events each step is as specified; in every state passed through, every index, refcount, channel and cap agrees with the live clients at every key; each departed client has been released exactly once |
| `GatewayRuns.BucketStep` | services/ws-gateway/src/server.ts:450-467 | only its own messages touch a connection's bucket, each charged once |
| `GatewayRuns.BucketFollows` | services/ws-gateway/src/server.ts:450-467 | after any run a connection's bucket is the token-bucket fold over the messages taken from it |
| `GatewayRuns.CountFollows` | services/ws-gateway/src/server.ts:450-467 | the messages of a run that are processed number what the token bucket counts |
| `GatewayRuns.RunRateLimit` | services/ws-gateway/src/server.ts:450-467 | in every run and for any time interval, of the messages a live connection sends within it at most burst + ratePerSec x (to - from) / 1000 are processed |
| `GatewayRuns.PromptlyServed` | services/ws-gateway/src/server.ts:450-467 | in every run with a burst of at least 1, a message at least 1000 / ratePerSec milliseconds after the connection's previous one is processed |
| `GatewayRuns.BurstServed` | services/ws-gateway/src/server.ts:450-467 | in every run, after burst x 1000 / ratePerSec milliseconds of silence the next floor(burst) messages are processed, however close together |
| `GatewayRuns.FreshIsRested` | services/ws-gateway/src/server.ts:421-443 | a new connection starts with that burst |
| `GatewayRuns.RulesAreLatest` | services/ws-gateway/src/server.ts:628-655 | in every run, the rules cached for a user are the last ones loaded for it, not invalidated since |
| `GatewayRuns.RulesStay` | services/ws-gateway/src/server.ts:628-655 | and loaded rules stay in force until they are loaded again or invalidated, or the user's last connection goes |
| `GatewayRuns.ReleasedForGood` | services/ws-gateway/src/server.ts:503-519 | a released client is never live again |
| `LiveLink.CapNeverBites` | services/ws-gateway/src/server.ts:521-540 | while the wanted set stays within 100, the gateway's cap never changes what it holds |
| `LiveLink.BumpUpKeeps` | apps/web/src/lib/use-live-odds.ts:476-490 | counting up keeps counts, hooks and the replay of the open socket in step |
| `LiveLink.BumpDownKeeps` | apps/web/src/lib/use-live-odds.ts:476-490 | so does counting down |
| `LiveLink.EnsureConnectedKeeps` | apps/web/src/lib/use-live-odds.ts:259-269 | so does opening a socket |
| `LiveLink.OnOpenKeeps` | apps/web/src/lib/use-live-odds.ts:271-281 | so does resubscribing everything on open |
| `LiveLink.OnCloseKeeps` | apps/web/src/lib/use-live-odds.ts:443-469 | so does a close event, of any socket |
| `LiveLink.ReconcileKeeps` | apps/web/src/lib/use-live-odds.ts:228-240 | so does closing a socket with a stale identity |
| `LiveLink.DeliverKeeps` | services/ws-gateway/src/server.ts:450-490 | so does the gateway handling the next frame of any socket it still serves |
| `LiveLink.ReleaseRemoteKeeps` | services/ws-gateway/src/server.ts:503-519 | so does the gateway tearing its end of any socket down |
| `LiveLink.MountKeeps` | apps/web/src/lib/use-live-odds.ts:539-557 | so does a mount, whatever the order of its matches; the peak of counted keys moves to the new number if that is larger |
| `LiveLink.UnmountKeeps` | apps/web/src/lib/use-live-odds.ts:559-562 | so does an unmount |
| `LiveLink.ConnectionOnly` | apps/web/src/lib/use-live-odds.ts:259-269 | ensuring a connection touches nothing else, and one is then open or on its way |
| `LiveLink.CountsAreHooks` | apps/web/src/lib/use-live-odds.ts:476-490 | a key's count is the number of mounted hooks covering it; keys without one are absent |
| `LiveLink.EndToEnd` | apps/web/src/lib/use-live-odds.ts:271-281 | in a state whose open held socket has drained, with at most 100 keys counted so far, the gateway holds for it exactly the covered matches, or nothing if it released the socket |
| `LiveRuns.RunKeeps` | apps/web/src/lib/use-live-odds.ts:228-563 | after any interleaving the invariant holds, the hooks are those the mounts and unmounts leave, and the peak is the largest number of keys counted in any state |
| `LiveRuns.RunCounts` | apps/web/src/lib/use-live-odds.ts:476-490 | over every run a key's count is the number of mounted hooks covering it |
| `LiveRuns.RunEndToEnd` | apps/web/src/lib/use-live-odds.ts:228-563 | over every run that never covers more than 100 matches: once the open held socket has drained, the gateway holds exactly the matches the mounted hooks cover, or nothing if it released the socket |
| `LiveRuns.CloseKeepsIff` | apps/web/src/lib/use-live-odds.ts:443-449 | a close event leaves every live socket held if and only if the connection holds none, the closing one, or one already past its life |
| `LiveRuns.OtherKeepsSole` | apps/web/src/lib/use-live-odds.ts:228-490 | no other step ever leaves a live socket unheld |
| `LiveRuns.NeverForgottenIff` | apps/web/src/lib/use-live-odds.ts:228-490 | over every run no live socket is forgotten if and only if no close event arrives for one socket while another that is connecting or open is held |
| `LiveRuns.OrphanedSocket` | apps/web/src/lib/use-live-odds.ts:443-446 | a run from the start after which an open, subscribed socket is held by nobody |
| `LiveRecovery.FirstHookSubscribes` | apps/web/src/lib/use-live-odds.ts:476-490 | the first hook on a match sends one subscribe on an open socket, any further one sends nothing |
| `LiveRecovery.LastHookUnsubscribes` | apps/web/src/lib/use-live-odds.ts:476-490 | the last hook on a match sends one unsubscribe, any other sends nothing |
| `LiveRecovery.OneSocketAtATime` | apps/web/src/lib/use-live-odds.ts:259-269 | a socket is opened exactly when none is open, connecting or being opened |
| `LiveRecovery.OpenSends` | apps/web/src/lib/use-live-odds.ts:271-281 | on open everything counted goes out in one frame, and none if nothing is counted |
| `LiveRecovery.CloseSchedules` | apps/web/src/lib/use-live-odds.ts:443-469 | a close schedules a reconnect exactly when somebody still listens, and forgets the greeting and the held socket |
| `LiveRecovery.ComesBack` | apps/web/src/lib/use-live-odds.ts:259-469 | after a close, the scheduled reconnect, its open and one handled frame, the gateway holds exactly the matches the mounted hooks cover |
| `LiveRecovery.IdentityChecked` | apps/web/src/lib/use-live-odds.ts:228-240 | a stale identity closes the held socket at most twice in a row; a matching one resets the budget |
| `LiveRecovery.GreetingMeans` | apps/web/src/lib/use-live-odds.ts:228-240 | what a greeting does for a matching, a stale and an unknown identity |
| `LiveRecovery.SessionChangeMeans` | apps/web/src/lib/use-live-odds.ts:214-240 | a session change earns a fresh budget and closes a socket greeted as somebody else |
| `LiveConnection.SharedConnection.Mount` | apps/web/src/lib/use-live-odds.ts:539-557 | registers the hook, counts each of its matches up once, and leaves a connection open or on its way |
| `LiveConnection.SharedConnection.Unmount` | apps/web/src/lib/use-live-odds.ts:559-562 | removes the hook and counts each of its matches down once |
| `LiveConnection.SharedConnection.CountUp` | apps/web/src/lib/use-live-odds.ts:556-556 | the mount loop counts every match once, in some order |
| `LiveConnection.SharedConnection.CountDown` | apps/web/src/lib/use-live-odds.ts:561-561 | so does the unmount loop |
| `LiveConnection.SharedConnection.HandleOpen` | apps/web/src/lib/use-live-odds.ts:271-281 | every counted key is resubscribed once, in one frame |
| `LiveConnection.Session` | apps/web/src/lib/use-live-odds.ts:181-563 | a fresh connection object driven through any steps follows a run, counts exactly the matches its hooks cover, and meets the gateway end to end |
| `SlotReels.WindowOf` | packages/types/src/slotzilla.ts:73-75 | a reading lies in a grid window exactly when that is its window start |
| `SlotReels.FirstMark` | packages/types/src/slotzilla.ts:84-87 | the first window is the least 5-second mark at or after clock plus lead |
| `SlotReels.RoundTiles` | packages/types/src/slotzilla.ts:84-97 | the three windows tile exactly fifteen seconds from it, each reading in one window only |
| `SlotReels.ComparesNumerically` | packages/types/src/slotzilla.ts:296-304 | length-then-lexical order is numeric order, both ways, on canonical decimal ids |
| `SlotReels.CanonicalIff` | packages/types/src/slotzilla.ts:296-304 | a decimal id is ordered as a number against every canonical id if and only if it is canonical itself |
| `SlotReels.LeadingZeroMisorders` | packages/types/src/slotzilla.ts:296-304 | and is not with leading zeros |
| `SlotReels.IdsTransitive` | packages/types/src/slotzilla.ts:296-304 | the id comparison is transitive, missing ids last |
| `SlotReels.ReelForWindow` | packages/types/src/slotzilla.ts:271-294 | an empty reel exactly when nothing is visible, else symbol, team and id of a visible event no visible event beats |
| `SlotReels.BestPlayShows` | packages/types/src/slotzilla.ts:24-31 | the symbol shown is the first of three-pointer, two-pointer, free throw, miss and foul that occurs in the five seconds, else nothing |
| `SlotReels.EarliestShows` | packages/types/src/slotzilla.ts:271-304 | among plays of that symbol the earliest is shown, and among those of one second the lowest id as a number |
| `SlotReels.OrderIndependentIff` | packages/types/src/slotzilla.ts:264-270 | every arrival order shows the same reel if and only if the events tied at the top look alike |
| `SlotReels.DistinctIdsSuffice` | packages/types/src/slotzilla.ts:264-270 | with distinct non-empty ids the top is one event, so the order does not matter |
| `SlotReels.ArrivalOrderMatters` | packages/types/src/slotzilla.ts:264-270 | without ids it can |
| `SlotReels.ReelsForRound` | packages/types/src/slotzilla.ts:307-310 | the three reels are those of the round's three windows |
| `SlotReels.LaterEvent` | packages/types/src/slotzilla.ts:271-294 | a later event outside the window, disabled or without symbol changes nothing; one inside only raises the rank |
| `SlotCalibrator.LineByCounts` | packages/types/src/slotzilla.ts:331-338 | the line is determined by how often each symbol shows, both ways, so the order of reels is irrelevant |
| `SlotCalibrator.SlidingRounds` | packages/types/src/slotzilla.ts:437-443 | every run of three consecutive windows, in order, and nothing else |
| `SlotCalibrator.LineFrequencies` | packages/types/src/slotzilla.ts:419-429 | from any corpus, each line's exact share; the shares are non-negative and sum to at most 1 |
| `SlotCalibrator.ExpectedReturnBp` | packages/types/src/slotzilla.ts:446-453 | the rounded sum over the twelve lines |
| `SlotCalibrator.ReturnIsAveragePayout` | packages/types/src/slotzilla.ts:419-453 | on frequencies measured from a corpus the return is the average a round of that corpus pays, in hundredths of the stake |
| `SlotCalibrator.FitLinesToTarget` | packages/types/src/slotzilla.ts:462-487 | factor, lines and fitted return; fixed lines untouched; a reachable integer target met within 50 basis points |
| `SlotCalibrator.EmptyReelsFixed` | packages/types/src/slotzilla.ts:411-412 | by default the empty-reel lines are untouched and every other line is scaled and rounded |
| `SlotCalibrator.FitWithinFifty` | packages/types/src/slotzilla.ts:462-487 | whatever the per-line rounding, a reachable integer target is met within 50 basis points |
| `SlotCalibrator.UnreachableFit` | packages/types/src/slotzilla.ts:455-461 | an unreachable target zeroes every line that is not fixed and returns the fixed lines' share alone |
| `SlotCalibrator.FitMonotone` | packages/types/src/slotzilla.ts:462-487 | a higher target never lowers a line |
| `ComboSearch.QualifyForLegs` | apps/web/src/lib/three-fold-builder.ts:177-196 | the loop lists the qualifying matches in order |
| `ComboSearch.QualifyMembers` | apps/web/src/lib/three-fold-builder.ts:177-196 | exactly the matches with an admitted side, with all their admitted sides |
| `ComboSearch.SidesOffered` | apps/web/src/lib/three-fold-builder.ts:131-196 | a side qualifies exactly when the match offers it at a price the filter admits |
| `ComboSearch.CapKeepsClosest` | apps/web/src/lib/three-fold-builder.ts:232-238 | no side of a match the cap drops is nearer the per-leg target than the nearest side of each match kept |
| `ComboSearch.CandidatesExactly` | apps/web/src/lib/three-fold-builder.ts:242-273 | the six loops visit every choice of sides of every three pool matches, and no other |
| `ComboSearch.Search` | apps/web/src/lib/three-fold-builder.ts:240-274 | the nested loops keep the best of the flat list of candidates |
| `ComboSearch.BestIsNearest` | apps/web/src/lib/three-fold-builder.ts:249-266 | that best is the first visited of the admissible triples nearest the target |
| `ComboSearch.PickForTierInSport` | apps/web/src/lib/three-fold-builder.ts:216-275 | the whole pick for one sport |
| `ComboSearch.PickIsNearest` | apps/web/src/lib/three-fold-builder.ts:216-275 | it is nearest over the whole capped pool, and absent exactly when fewer than three qualify or nothing is admissible |
| `ComboSearch.RelaxedPickSucceeds` | apps/web/src/lib/three-fold-builder.ts:216-275 | with the band ignored there is a pick if and only if three matches qualify |
| `ComboSearch.PickedFrom` | apps/web/src/lib/three-fold-builder.ts:216-275 | its legs are offered by three distinct matches |
| `ComboCarousel.DedupeMatches` | apps/web/src/lib/three-fold-builder.ts:166-175 | the loop keeps the first match of each id |
| `ComboCarousel.EligibleFacts` | apps/web/src/lib/three-fold-builder.ts:326-329 | only input matches without a status or not started remain, each id once |
| `ComboCarousel.EligibleExactly` | apps/web/src/lib/three-fold-builder.ts:326-329 | exactly the first such match of each id |
| `ComboCarousel.GroupBySport` | apps/web/src/lib/three-fold-builder.ts:283-294 | the loop and sort build the specified buckets |
| `ComboCarousel.SportsFacts` | apps/web/src/lib/three-fold-builder.ts:283-294 | each bucket is exactly its sport's matches, every match has one, larger buckets first |
| `ComboCarousel.SportsNamed` | apps/web/src/lib/three-fold-builder.ts:283-294 | a bucket carries the sport name of its first match |
| `ComboCarousel.OverSports` | apps/web/src/lib/three-fold-builder.ts:378-393 | the first open sport with a pick |
| `ComboCarousel.OverPasses` | apps/web/src/lib/three-fold-builder.ts:377-395 | the first pass with a pick |
| `ComboCarousel.BuildThreeFoldSuggestions` | apps/web/src/lib/three-fold-builder.ts:313-411 | the tier loop deals the specified carousel |
| `ComboCards.FirstPassFacts` | apps/web/src/lib/three-fold-builder.ts:377-395 | a chosen pass is the strictest that succeeds: every stricter one fails in every sport |
| `ComboCards.EveryCardGood` | apps/web/src/lib/three-fold-builder.ts:313-411 | every card has three legs on distinct prematch matches of one sport, each a side of its match at its own price text, at or above the boost minimum; its price in hundredths is the floor of a hundred times the product of what the three texts read as; no sport off the multi-card list holds two cards |
| `ComboCards.FirstPassDisjoint` | apps/web/src/lib/three-fold-builder.ts:362-378 | whenever a first-pass pick exists the tier's card shares no match with any earlier card |
| `ComboCards.EarlierCardsStay` | apps/web/src/lib/three-fold-builder.ts:396-407 | filling a tier never replaces an earlier card |
| `ComboCards.TiersFilledIff` | apps/web/src/lib/three-fold-builder.ts:313-411 | from the pool alone: the i-th tier gets a card if and only if a multi-card sport has three matches with a boost-eligible side, or more than i sports have |
| `ComboCards.AllFourIff` | apps/web/src/lib/three-fold-builder.ts:353-360 | all four cards if and only if a multi-card sport supplies or at least four sports do |
| `ComboCards.OneSportOneCard` | apps/web/src/lib/three-fold-builder.ts:353-360 | a pool of one sport off the multi-card list fills the first tier at most |
| `ComboCards.ThreeMatchesOneCard` | apps/web/src/lib/three-fold-builder.ts:353-360 | a pool of three such matches that gets one card |
| `ComboCards.AllTiersFilled` | apps/web/src/lib/three-fold-builder.ts:353-358 | one multi-card sport with three such matches fills all four tiers |
| `ComboCards.ThreeSupply` | apps/web/src/lib/three-fold-builder.ts:353-358 | three eligible matches of one sport, each with a boost-eligible side, are enough |
| `ComboPromises.TableIsBands` | apps/web/src/lib/three-fold-builder.ts:95-126 | the tiers' leg filters, bands and targets written out |
| `ComboPromises.StrictNearest` | apps/web/src/lib/three-fold-builder.ts:249-266 | a strict pass gives three legs that fit the tier, whose read prices multiply to a price in the tier's band, at least as near the tier's target as every in-band combination of the shortlist |
| `ComboPromises.NearestOfAll` | apps/web/src/lib/three-fold-builder.ts:216-275 | with at most thirty qualifying matches, nearest among all in-band combinations of three matches' fitting sides, and found whenever there is one |
| `ComboPromises.StrictestPass` | apps/web/src/lib/three-fold-builder.ts:362-395 | a card repeats no match while some open sport has a strict pick among unused matches, is in band while one has a strict pick at all, and its legs fit while one has three fitting matches |
| `ComboPromises.PassesAre` | apps/web/src/lib/three-fold-builder.ts:362-376 | the four passes written out |
| `ComboPromises.RankedOrder` | apps/web/src/lib/three-fold-builder.ts:232-238 | the pool is ranked by closeness, equally close matches by id |
| `ComboPromises.SuppliesIff` | apps/web/src/lib/three-fold-builder.ts:353-358 | a sport supplies cards exactly when three of its matches each have a boost-eligible side |
| `BetSlip.Store.UpdateOdds` | apps/web/src/lib/bet-slip.tsx:508-583 | the flagged map over the legs is the specified tick |
| `BetSlip.Store.SetMarketStatus` | apps/web/src/lib/bet-slip.tsx:585-608 | likewise for a market status |
| `BetSlip.Store.AcceptPendingOdds` | apps/web/src/lib/bet-slip.tsx:610-638 | likewise for accepting drifted odds, the quote dropped exactly when something changed in builder mode |
| `BetSlip.StepKeeps` | apps/web/src/lib/bet-slip.tsx:310-638 | every action keeps: markets distinct; a builder match implies builder mode, and all legs on it unless its id is empty; a quote implies builder mode; pending odds differ from accepted odds |
| `BetSlip.RunKeeps` | apps/web/src/lib/bet-slip.tsx:310-638 | so does every run |
| `BetSlip.Session` | apps/web/src/lib/bet-slip.tsx:199-638 | a store driven through any actions ends where the run does, with the invariant kept |
| `BetSlipActions.AddOutsideBuilder` | apps/web/src/lib/bet-slip.tsx:310-363 | outside a builder every leg of another match stays, unchanged and in order, no other leg of the match stays, and the new leg is last without pending odds |
| `BetSlipActions.AddOnBuilderMatch` | apps/web/src/lib/bet-slip.tsx:310-363 | on the builder match the same per market, and the quote is dropped |
| `BetSlipActions.AddLeavesBuilder` | apps/web/src/lib/bet-slip.tsx:310-363 | a leg of another match leaves the builder and is the only one |
| `BetSlipActions.RemoveLeavesOthers` | apps/web/src/lib/bet-slip.tsx:365-391 | exactly the other picks remain, in order; an emptied builder is left |
| `BetSlipActions.ClearAndMode` | apps/web/src/lib/bet-slip.tsx:390-429 | clearing leaves no leg; a mode switch leaves the legs alone and drops the builder's state when leaving it |
| `BetSlipActions.BuilderMatchLegs` | apps/web/src/lib/bet-slip.tsx:431-467 | opening a builder keeps exactly the legs of its match, in order; closing one drops them all |
| `BetSlipActions.SingleFields` | apps/web/src/lib/bet-slip.tsx:405-500 | a quote and eligible markets count only for the builder they belong to; an unknown currency is ignored |
| `BetSlipActions.SamePriceIff` | apps/web/src/lib/bet-slip.tsx:48-54 | two prices on the four-decimal grid are the same odds exactly when equal |
| `BetSlipActions.UnreadableSameIff` | apps/web/src/lib/bet-slip.tsx:48-54 | texts that are not both numbers are the same odds only if identical |
| `BetSlipActions.TickMeans` | apps/web/src/lib/bet-slip.tsx:508-583 | leg by leg: the outcome's legs take the active flag, and either show the drift as pending or drop it and take the new probability; no accepted odds move |
| `BetSlipActions.StatusMeans` | apps/web/src/lib/bet-slip.tsx:585-608 | the market's legs are bettable exactly when the status is 1 |
| `BetSlipActions.AcceptMeans` | apps/web/src/lib/bet-slip.tsx:610-638 | each pending price becomes the leg's odds, with its probability; a builder's quote goes exactly when some price was pending |
| `BetSlipActions.ReloadMeans` | apps/web/src/lib/bet-slip.tsx:166-260 | leg by leg, all but the drift comes back; the slip is closed, without quote or markets |
| `BetSlipActions.StartsEmpty` | apps/web/src/lib/bet-slip.tsx:154-164 | a slip starts as an empty closed combo in the default currency |
| `BetSlipRuns.OddsNeedConsent` | apps/web/src/lib/bet-slip.tsx:508-638 | accepted odds change in a step only by that add or by accepting that pending price |
| `BetSlipRuns.EveryPriceAgreed` | apps/web/src/lib/bet-slip.tsx:310-638 | in every run, each leg's odds were added or accepted at some step and held ever since |
| `BetSlipRuns.QuoteDroppedIff` | apps/web/src/lib/bet-slip.tsx:310-638 | an action that changes legs or accepted odds drops the quote if and only if it is not an add in builder mode without a match id |
| `BetSlipRuns.QuoteAlwaysCurrent` | apps/web/src/lib/bet-slip.tsx:310-638 | in every run that enters the builder through a match, a cached quote prices exactly the legs now held |
| `BetSlipRuns.LateQuoteIff` | apps/web/src/lib/bet-slip.tsx:469-477 | a quote asked for at one step and stored at a later one prices the legs now held if and only if the legs did not change while it was under way |
| `BetSlipRuns.LateQuoteIsStale` | apps/web/src/lib/bet-slip.tsx:469-477 | a run in which the answer comes too late and is stored |
| `BetSlipRuns.StaleQuoteWithoutMatch` | apps/web/src/lib/bet-slip.tsx:409-429 | a run in which the quote goes stale |
| `BetSlipRuns.OneEachIff` | apps/web/src/lib/bet-slip.tsx:310-467 | one pick per match outside the builder is kept by an action if and only if it does not leave a builder of two or more legs by the mode switch |
| `BetSlipRuns.LeavingKeepsBoth` | apps/web/src/lib/bet-slip.tsx:409-429 | a run in which the switch leaves two legs of one match |
| `BetSlipRuns.AllOnMatchIff` | apps/web/src/lib/bet-slip.tsx:310-638 | an action keeps every leg on the set builder match if and only if it does not add a leg of a real match to a builder opened on the empty id |
| `BetSlipRuns.EmptyMatchIdBreaks` | apps/web/src/lib/bet-slip.tsx:431-467 | a builder on the empty match id takes a leg of another match |
| `BetSlipRuns.ReloadRoundTrip` | apps/web/src/lib/bet-slip.tsx:166-260 | storing and loading gives back legs, odds, mode, currency and builder match; a second reload changes nothing |
| `BetSlipRuns.TickStoresNothingIff` | apps/web/src/lib/bet-slip.tsx:220-232 | a tick leaves the stored slip unchanged if and only if each leg of its outcome either has an explicit active flag at the tick's value or has none and shows this drift already, and no new probability lands |
| `BetSlipRuns.FirstDriftIsStored` | apps/web/src/lib/bet-slip.tsx:220-232 | the first drift tick on a leg without an active flag is stored |
| `ServerClock.Estimator.DoObserve` | apps/web/src/lib/clock-math.ts:115-122 | one observation is the specified step |
| `ServerClock.Estimator.DoRecompute` | apps/web/src/lib/clock-math.ts:108-112 | filtering and maximum over the window |
| `ServerClock.AcceptedIsHeld` | apps/web/src/lib/clock-math.ts:115-122 | an accepted observation is always held afterwards |
| `ServerClock.DayApartIgnored` | apps/web/src/lib/clock-math.ts:101-122 | a frame whose clocks are more than a day apart is ignored whole, any other is held |
| `ServerClock.EstimateIsLeastLatency` | apps/web/src/lib/clock-math.ts:103-135 | after any observations the estimate never exceeds the true offset and is it minus the smallest latency among samples held |
| `ServerClock.KeepKeep` | apps/web/src/lib/clock-math.ts:109-109 | expiring twice is expiring once at the later time |
| `ServerClock.RetainedExactly` | apps/web/src/lib/clock-math.ts:103-135 | on a forward-running device clock, the samples held are exactly the accepted ones since the last restart still in the window |
| `ServerClock.SteadyNeverRestarts` | apps/web/src/lib/clock-math.ts:119-119 | while latencies stay within the jump threshold nothing restarts it |
| `ServerClock.SteadyEstimate` | apps/web/src/lib/clock-math.ts:103-135 | the estimate is then the best offset of the last window's accepted observations |
| `Specifiers.Parse` | packages/types/src/specifiers.ts:25-34 | the loop fills the specified dictionary, whose keys and values are clean of separators |
| `Specifiers.ParsedIsClean` | packages/types/src/specifiers.ts:25-34 | whatever the input, a parsed key holds neither separator and a parsed value no bar |
| `Specifiers.RoundTripIff` | packages/types/src/specifiers.ts:14-34 | parsing the canonical form gives the record back if and only if no key holds '=' or a bar and no value a bar |
| `Specifiers.OrderIndependent` | packages/types/src/specifiers.ts:14-18 | the canonical form does not depend on insertion order |
| `Specifiers.CanonicalInjective` | packages/types/src/specifiers.ts:14-18 | clean records with one canonical form are one record |
| `Money.RoundTrip` | packages/types/src/money.ts:12-34 | printing an amount and reading it back gives it, for every integer |
| `Money.ReadIff` | packages/types/src/money.ts:12-18 | exactly the texts with an optional minus, digits, and optionally a point with digits are read |
| `Money.ReadsDecimal` | packages/types/src/money.ts:12-23 | a decimal is read to the micro unit, further digits dropped |
| `Money.WholeNumber` | packages/types/src/money.ts:12-23 | a whole number of units, passed as a number below 10^21, is read exactly |
| `Money.ExponentRefused` | packages/types/src/money.ts:13-16 | a text with an exponent, as numbers from 10^21 up have, is refused |
| `Money.FromMicroInjective` | packages/types/src/money.ts:25-34 | no two amounts print alike |

## Left out

- IEEE rounding and non-finite numbers; reals are exact, and inputs the source rejects or passes through only because they are NaN or infinite do not arise.
- Strings are sequences of characters; text outside the basic plane, and the dictionary key `__proto__`, are not modelled.
- Money.WholeNumber: numbers with a fraction are not modelled, as their text is the runtime's.
- LiveRuns.RunEndToEnd: frames dropped by the rate limit and more than 100 keys at once are outside it, as the gateway then holds less than was asked.
- CustomPrices.MoreMoneyShortensIff: speaks of factors that solve the key exactly; the solver's own error is in ApplyNetwinstableKey.
- Gateway.Server.Run: Redis failures, messages after teardown and cascade loads finishing out of order are not modelled; a cascade load or invalidation is a step of its own.
- BetSlip.RunKeeps: the cross-document storage listener is not an action, since it replaces legs while keeping this document's quote.
- ComboSearch.PickIsNearest: leg labels, team names, probabilities and the text of the combined odds are not modelled.
- User-channel dispatch, health and memory reporting, shutdown, upgrade parsing, origin checks and authentication.
- Tick, score, ticket and support listeners of the browser; React rendering, effects and timers beyond mount, unmount and reconnect.
- `quoteMarketBoost` and `formatBoostedOdds`: assembly and formatting over the boosts proved here.
- SlotZilla's payout, exposure, period clock and labels; clock display helpers.
- SHA-256 of the canonical specifier string.
- The Go ports of products, SlotZilla rules and odds formatting.
- Support bot, banner generation, database schema, migrations, seeds and load tests.

# DwarPal money path: a verified model

DwarPal lets a merchant sell to AI buyer agents. An agent opens a checkout session, a deterministic gate judges the
cart, money is reserved on the agent's spend mandate, a payment link is created, and polling the payments provider
commits or releases the reservation. Everything that happens is appended to a hash-chained audit ledger.

This project models that path in Dafny and proves what it promises: caps that hold on every run, a ledger that alone
rebuilds the accounting, links that are always backed by the gate, refunds that stay within what was captured, a retry
that is never taken from an agent by other spending, decisions that replay, edits to the ledger that are found where
they were made, offers that never push a cart over a cap, and nonces that protect against replays although they are
pruned.

`dafny verify dfyconfig.toml` checks the whole project (Dafny 4.11).

## How it is organised

| files | what they hold |
|---|---|
| `Policy`, `Gate`, `RefundGate` | the policy document and both gates: the meaning of a decision (`Decide`, `DecideRefund`) and the early-return code, with its loops and its growing list of checks, proved equal to it |
| `GateLaws`, `CartLaws` | what a decision means, with no rule order in it; monotonicity, order of the lines, which inputs matter |
| `PlainGate`, `Policies` | both again in the merchant's own terms: what a policy document says, which documents can be stored, and each rule as a plain statement about cart, catalog, buyer and terms |
| `Ledger`, `LedgerLaws` | append, anchor and verify over an arbitrary hash; what verification detects, always with the alternative of an explicit collision |
| `Records`, `Books` | table rows, events, the whole state; sums over reservations, days, refunds |
| `Checkout` | each call of the service as a function of the state before it and of the provider's answers |
| `Buying`, `Orders`, `Issuing`, `Completing`, `Polling`, `Cancelling`, `Refunding` | what each call leads to, case by case, said about the request and the tables alone: the row, the reservations, the payments, the reply and the events |
| `Stores`, `Service`, `Shop` | the same calls as they run: classes over mutable tables and a mutable ledger, each method proved to be the call in `Checkout`; `Shop` serves any list of calls |
| `Audit`, `Rulings`, `Accounts`, `Settlement` | the trail read on its own, and the accounting invariant of one session and one mandate, kept by every call |
| `Evolution`, `Runs`, `Safety` | what may change over time, runs of any length, and the invariant of the whole shop |
| `Guarantees`, `Trails`, `Idempotence`, `Resolution`, `Fairness`, `Retries`, `Crediting` | the results about runs |
| `Transactions` | the reservation table when the transactions of several calls interleave |
| `TeaShop`, `Repricing`, `Overlap`, `NamelessOffers` | a small shop and the concrete runs that fail a promise |
| `Replay`, `CrossSell`, `OfferLaws`, `Picking`, `Nonces` | offline replay, add-on offers, and request nonces |

Three layers carry the argument. `Checkout` says what a call does; the lemmas about runs are about it. `Service` is the
code's own form, and `Storefront.ServeAll` connects the two: serving any list of calls on the tables ends in the last
state of a run of exactly those calls, so each result about runs holds of the tables and the ledger the shop has. The
outcome modules say the same calls a second time from the outside, without the helpers that `Checkout` and `Service`
share: under conditions on the request, the policy's terms and the tables, this is the whole new state. A helper that
read the wrong column or took the wrong branch would be wrong in both of the first two layers, and is caught in the third.

## Reading the model

- A run is the list of states of the shop, from a fresh one on, each reached from the one before by one call (`IsRun`).
  Results about runs speak of an arbitrary state, or of two states and what happened in between.
- One service call is one atomic step with one reading of the clock. The clock of a run is arbitrary: it may stand
  still or go back. Only the nonce results need it to go forward.
- Answers of the payments provider (a link, a poll, a cancellation, a refund, or a failure of any of these) are
  arguments of the call, so every result holds for every provider. Payment ids within one poll are distinct.
- Ids are row numbers; a fresh id is the next row. Hashing, reading and writing JSON, and signatures are arbitrary
  functions. Reading back what was written is assumed to give it back; nothing at all is assumed of the hash, so
  results about edits end in "or here are two inputs with one digest".
- Details and reasons of a decision are the data the English sentences are rendered from.

## Where the code and its promises part

- A retry prices the cart again but leaves the reservation alone (`dwarpal/sessions.py:494-517`). After a reconcile
  whose retry is allowed the second link is for the amount held exactly when the cart still costs that much
  (`Retries.SecondLinkAmount`); it does if agent, mandate, policy, catalog entries and day are unchanged
  (`Retries.FairSecondLink`). There is a run whose links are for 100 and then 200 while 100 stay held
  (`Repricing.SecondLinkCanDiffer`). The caps are about reservations.
- The caps hold for calls served one after the other. The gate run and the reservation are separate transactions
  (`dwarpal/sessions.py:385`, `dwarpal/sessions.py:399`). If two completes both run the gate before either reserves, the
  total cap then holds if and only if there was room for both totals, and so does the daily cap when they are on one
  day (`Transactions.InterleavedGateRuns`); nothing in the rest of the calls stops them
  (`Transactions.OverlappingCompletes`). `docs/decisions.md:18-21` says that reservations keep two concurrent checkouts
  from both passing the daily cap; that needs the calls themselves to be serialised, and without it two carts of 600
  both pass a daily cap of 1000 (`Overlap.DailyCapCanBeExceeded`).
- A refund credits the mandate on the session row, not the one on the reservation (`dwarpal/sessions.py:560`). It is the
  mandate that paid exactly when the session carried the mandate in force at its complete
  (`Crediting.CreditedIsPayer`, `Crediting.RefundCreditsPayer`). They differ when the mandate was replaced between the
  last preview and the complete: there is a run on which 100 are spent on one mandate and the refund is credited to
  the other (`Crediting.CreditCanGoElsewhere`). The credited mandate is then revoked
  (`Guarantees.ActiveMandateCreditedForItsOwnSpend`).
- A policy without a numeric order maximum reads as "no maximum" but ends in the guard rule, because the detail of the
  rule formats the missing value (`dwarpal/gate.py:313-318`, `GateLaws.NoMaximumNoSale`). Stored policies always
  have one.
- The catalog accepts a product with an empty id, though only from a direct `Catalog.upsert`
  (`dwarpal/catalog.py:61-83`): seed rows have fixed ids and synced ids start with `prod_`. Such a row can become a
  candidate, and adding it is denied as a malformed cart (`NamelessOffers.NamelessCandidate`); every other candidate is
  safe (`OfferLaws.CandidatesAreSafe`).
- Reformatting the stored text of a payload so that it parses to the same value is never noticed
  (`LedgerLaws.ReformattingUnnoticed`); recomputing the hash of an edited event moves the report to the next event
  (`LedgerLaws.EditLocalised`).

## Model

| member | source | states |
|---|---|---|
| `Gate.Evaluate` | dwarpal/gate.py:203-377 | the early-return evaluation is the least rule, in order, that does not pass, with one recorded check per rule run |
| `Gate.EvaluateMerchant` | dwarpal/gate.py:273-318 | given that rules 0 to 3 passed and are recorded, the merchant rules and what follows reach the declarative decision |
| `Gate.EvaluateMandate` | dwarpal/gate.py:320-349 | the same from the mandate's category and cap rules on |
| `Gate.EvaluateState` | dwarpal/gate.py:351-377 | the same from the session-state rule on; the only place ALLOW is produced |
| `Gate.CheckShape` | dwarpal/gate.py:227-236 | the loop with its set of seen ids finds the first malformed, badly counted or duplicate line |
| `Gate.PriceItems` | dwarpal/gate.py:260-270 | the pricing loop stops at the first unknown or unusably priced item, and otherwise yields the cart priced line by line and its total |
| `Gate.PricedCart` | dwarpal/gate.py:260-271 | once G00 and G03 pass, every item is priced from the merchant's catalog, with quantity at least 1 and price at least 0 |
| `GateLaws.LeastFailingRule` | dwarpal/gate.py:23-28 | the recorded checks are a prefix of the rule order, all but the last passed, the last decides; ALLOW iff all fifteen passed, REVIEW iff only the last rule failed |
| `GateLaws.AllowIffAcceptable` | dwarpal/gate.py:213-377 | ALLOW if and only if the cart, buyer, policy, caps, state and review conditions hold together, stated without any order of rules, for any policy document; `PlainGate.PlainVerdict` and `Policies.ReadersMean` say what the document's keys mean in them |
| `GateLaws.AllowMeans` | dwarpal/gate.py:320-377 | what a money step may rely on after ALLOW: mandate in force, total within every cap, review satisfied, lines priced from the catalog |
| `GateLaws.WellFormedMeans` | dwarpal/gate.py:221-237 | G00 passes iff the cart has 1 to 20 plain lines with distinct ids |
| `GateLaws.KnownMeans` | dwarpal/gate.py:260-271 | for a well-formed cart G03 passes iff every item is in the catalog with a usable price, and then the total is the sum of price times quantity |
| `GateLaws.ModeOnlyMattersToG13` | dwarpal/gate.py:351-359 | no rule but G13 reads the mode or the session status |
| `GateLaws.ModesAgree` | dwarpal/gate.py:31-35 | in the state its mode expects, a cart gets the same verdict, rule, lines and total in preview, authoritative and retry |
| `GateLaws.GuardUnreachable` | dwarpal/gate.py:203-210 | with a validated policy and non-negative prices no rule raises: G99 is never the answer |
| `GateLaws.NoMaximumNoSale` | dwarpal/gate.py:313-318 | a policy whose order maximum is absent or not a number never leads to ALLOW; if the earlier rules pass the decision is G99 |
| `PlainGate.StoredPolicySays` | dwarpal/policy.py:38-70 | every policy that can be stored says some terms: numbers, names and a flag, key by key |
| `PlainGate.PlainDecision` | dwarpal/gate.py:213-377 | the decision is the first of fifteen plain statements about cart, catalog, buyer and terms that fails, REVIEW for the last and DENY for the others, ALLOW if none does; from pricing on the lines are the requested items at catalog prices and the total is their cost |
| `PlainGate.PlainVerdict` | dwarpal/gate.py:213-377 | ALLOW iff all fifteen statements hold, REVIEW iff all but the last do |
| `PlainGate.StockAsThePolicySays` | dwarpal/gate.py:275-282 | with `in_stock_only` true or missing no cart with a sold-out product passes the gate; with it false no decision is ever at G04 |
| `PlainGate.StockDoesNotMatter` | dwarpal/gate.py:275-282 | with `in_stock_only` false the decision is the same whatever is in stock |
| `CartLaws.CatalogFrame` | dwarpal/gate.py:260-282 | the decision depends on no catalog entry but those of the cart |
| `CartLaws.SmallerCartStaysAllowed` | dwarpal/gate.py:221-377 | dropping lines, lowering quantities or lowering prior spend keeps ALLOW and does not raise the total |
| `CartLaws.OrderOfLinesIrrelevant` | dwarpal/gate.py:221-377 | permuting the lines changes neither verdict nor rule nor total |
| `RefundGate.EvaluateRefund` | dwarpal/gate.py:132-188 | the refund rules as run are the first of the five, in order, that fails |
| `RefundGate.RefundAllowIff` | dwarpal/gate.py:143-188 | a refund is allowed iff the request is well formed, the session completed and captured, the balance suffices, the reference is new and the window open; never REVIEW |
| `Policy.CleanStrList` | dwarpal/policy.py:27-35 | a list of names is refused unless every entry is a non-blank string, and otherwise stripped and deduplicated in order |
| `Policy.Fold` | dwarpal/policy.py:30-35 | the loop keeps first occurrences of the stripped names |
| `Policy.ValidationFixpoints` | dwarpal/policy.py:38-70 | the documents that validation leaves unchanged are exactly the valid policies |
| `Policy.ValidationIdempotent` | dwarpal/policy.py:38-70 | validating a validated policy gives it back |
| `Policy.CleanListRoundTrip` | dwarpal/policy.py:27-35 | a clean list survives cleaning unchanged |
| `Policy.DefaultPolicyIsValid` | dwarpal/policy.py:9-17 | the policy used before one is stored is valid |
| `Policies.StripMeans` | dwarpal/policy.py:28-32 | stripping takes whitespace off both ends and nothing else; nothing is left iff all of it was white |
| `Policies.AcceptedIffStorable` | dwarpal/policy.py:38-62 | a document is accepted iff every required key is there, every value is of its kind and in range, every name is not blank, and there is no other key |
| `Policies.StoredSaysAsAsked` | dwarpal/policy.py:62-70 | what is stored says the numbers and the flag of the document, its names stripped and each once, and 0 and 30 days where it is silent |
| `Policies.ReadersMean` | dwarpal/gate.py:275-363 | of any document: stock is asked for unless the value is false for Python, only a positive number is a review threshold, a missing or boolean limit reads as 20, 0 or 1 |
| `Stores.CheckPolicy` | dwarpal/policy.py:38-70 | the checks as run report the first problem in source order, or the cleaned document |
| `Stores.PolicyStore.Set` | dwarpal/policy.py:82-89 | only the cleaned form of a valid document is ever stored |
| `Stores.MandateStore.Create` | dwarpal/mandates.py:71-96 | a new mandate revokes all earlier ones of the agent; bad terms change nothing |
| `Stores.MandateStore.Supersede` | dwarpal/mandates.py:88 | exactly the agent's mandates become revoked, whatever they were |
| `Stores.MandateStore.CleanCategories` | dwarpal/mandates.py:81-86 | refused iff a category is blank; otherwise every category stripped |
| `Stores.MandateStore.Revoke` | dwarpal/mandates.py:115-120 | revokes that mandate and nothing else, or reports it unknown |
| `Stores.MandateStore.ActiveFor` | dwarpal/mandates.py:102-106 | the newest mandate in force for the agent, the later row on a tie |
| `Stores.MandateStore.OpenFor` | dwarpal/mandates.py:129-132 | the session's open reservation, if any |
| `Stores.MandateStore.Reserve` | dwarpal/mandates.py:138-152 | adds one open reservation; refused for a negative amount or while one is open |
| `Stores.MandateStore.MoveOpen` | dwarpal/mandates.py:154-163 | moves exactly the session's open reservations and fails iff there is none |
| `Stores.MandateStore.Commit` | dwarpal/mandates.py:165-166 | commits the open reservation |
| `Stores.MandateStore.Release` | dwarpal/mandates.py:168-169 | releases the open reservation |
| `Stores.MandateStore.Spent` | dwarpal/mandates.py:171-188 | the loop computes reserved plus committed less refunds, at least 0, and the part created on the UTC day of now, leaving out one session on request |
| `Stores.AgentStore.Register` | dwarpal/agents.py:45-58 | a registered agent is active |
| `Stores.AgentStore.Revoke` | dwarpal/agents.py:84-89 | revokes that agent and nothing else, or reports it unknown |
| `Stores.CatalogStore.Upsert` | dwarpal/catalog.py:61-83 | a product with a negative price is never stored |
| `Books.DaysPartitionTime` | dwarpal/db.py:75-78 | the day bounds of now contain exactly the instants of its UTC day |
| `Books.TransitionSum` | dwarpal/mandates.py:154-188 | moving a session's one open reservation changes every spend figure by exactly that reservation |
| `Service.SessionService.constructor` | dwarpal/sessions.py:52-66 | the service starts on the tables it is given with an empty trail |
| `Service.SessionService.Record` | dwarpal/ledger.py:90-104 | an event appended by the service extends the verified trail by that event |
| `Service.SessionService.PaymentSeen` | dwarpal/sessions.py:91-93 | whether a payment id is on file for the session |
| `Service.SessionService.Expected` | dwarpal/sessions.py:143-153 | the accumulating loop gives the sum over the cart, or nothing at the first unusable item |
| `Service.SessionService.Approved` | dwarpal/sessions.py:155-160 | true iff the session's latest review approves exactly this total |
| `Service.SessionService.Gather` | dwarpal/sessions.py:162-172 | everything one gate run is given: mandate in force, spend with or without the session's own, policy, catalog, approval |
| `Service.SessionService.Ruled` | dwarpal/sessions.py:162-174 | one gate run on the current tables, and its input kept for the record |
| `Service.SessionService.RecordDecision` | dwarpal/sessions.py:196-203 | the recorded event carries the decision and the kept input, the catalog cut down to the cart |
| `Service.SessionService.RecordReviewRequest` | dwarpal/sessions.py:221-225 | a review request is recorded exactly for REVIEW, with the threshold in force |
| `Service.SessionService.FindByKey` | dwarpal/sessions.py:249-250 | the agent's session under an idempotency key |
| `Service.SessionService.Create` | dwarpal/sessions.py:247-278 | new tables, trail and reply are those of the specified create |
| `Service.SessionService.CreateRuled` | dwarpal/sessions.py:258-278 | the insert and its events, given the preview decision |
| `Service.SessionService.StorePreview` | dwarpal/sessions.py:280-303 | a preview decision is stored and recorded; an update announces itself, an approval does not |
| `Service.SessionService.Update` | dwarpal/sessions.py:305-310 | new tables, trail and reply are those of the specified update |
| `Service.SessionService.Review` | dwarpal/sessions.py:319-339 | new tables, trail and reply are those of the specified review decision |
| `Service.SessionService.ReleaseOpen` | dwarpal/sessions.py:364-370 | releases and records the release iff a reservation is open |
| `Service.SessionService.Complete` | dwarpal/sessions.py:372-411 | new tables, trail and reply are those of the specified complete |
| `Service.SessionService.CompleteRuled` | dwarpal/sessions.py:386-411 | the part after the authoritative decision: review, denial, or reserve and pay |
| `Service.SessionService.Pay` | dwarpal/sessions.py:401-411 | a link and a pending session, or the money given back |
| `Service.SessionService.NewAttempts` | dwarpal/sessions.py:429 | the listed attempts that are not on file, in order |
| `Service.SessionService.RecordAttempts` | dwarpal/sessions.py:430-436 | the loop files every new attempt and records every failure |
| `Service.SessionService.Reconcile` | dwarpal/sessions.py:415-446 | new tables, trail and reply are those of the specified reconcile |
| `Service.SessionService.ReconcilePolled` | dwarpal/sessions.py:427-446 | the same once the poll has answered |
| `Service.SessionService.SettleAttempt` | dwarpal/sessions.py:437-446 | capture first, then failure, dead link or expiry, else keep waiting |
| `Service.SessionService.Outcome` | dwarpal/sessions.py:437-440 | the first new captured attempt, and whether any new attempt failed |
| `Service.SessionService.CommitOpen` | dwarpal/sessions.py:463-467 | commits and records iff a reservation is open |
| `Service.SessionService.FinishPaid` | dwarpal/sessions.py:458-473 | new tables, trail and reply are those of the specified completion |
| `Service.SessionService.CancelLinkQuietly` | dwarpal/sessions.py:475-483 | records whether the provider cancelled the link, and nothing else changes |
| `Service.SessionService.Abandon` | dwarpal/sessions.py:485-492 | new tables, trail and reply are those of the specified abandon |
| `Service.SessionService.AfterFailed` | dwarpal/sessions.py:494-517 | abandon after the last attempt, else retry through the gate |
| `Service.SessionService.RetryRuled` | dwarpal/sessions.py:502-517 | the part after the retry decision |
| `Service.SessionService.Cancel` | dwarpal/sessions.py:570-578 | new tables, trail and reply are those of the specified cancel, by owner or merchant |
| `Service.SessionService.CancelRow` | dwarpal/sessions.py:580-609 | the cancel of one row, with its provider answer |
| `Service.SessionService.LastPoll` | dwarpal/sessions.py:588-605 | when the link cannot be cancelled, a capture seen by a last poll completes the session |
| `Service.SessionService.NewCapture` | dwarpal/sessions.py:594-596 | the first captured attempt that is not on file |
| `Service.SessionService.FirstCapturedRow` | dwarpal/sessions.py:525-527 | the session's first captured payment |
| `Service.SessionService.RefundsOf` | dwarpal/sessions.py:528-534 | the session's refunded total and the references used |
| `Service.SessionService.Refund` | dwarpal/sessions.py:521-566 | new tables, trail and reply are those of the specified refund |
| `Service.SessionService.RefundRuled` | dwarpal/sessions.py:541-566 | the part after the refund decision |
| `Shop.Storefront.constructor` | dwarpal/context.py:44-54 | a new shop is a valid starting point of a run |
| `Shop.Storefront.Serve` | dwarpal/context.py:20-33 | serving one call takes the tables and the ledger to the state that call specifies |
| `Shop.Storefront.ServeAll` | dwarpal/context.py:20-33 | serving any list of calls keeps the invariant and ends in the last state of a run of exactly those calls |
| `Rulings.ExpectedIsGateTotal` | dwarpal/sessions.py:143-153 | whenever G00 and G03 pass, the service's own total is the gate's total |
| `Rulings.JudgeSpendable` | dwarpal/sessions.py:162-174 | ALLOW leaves room for the total under every cap of the mandate in force, given the spend on file |
| `Rulings.JudgeReviewBound` | dwarpal/sessions.py:155-174 | ALLOW above the threshold means the latest review approved exactly this total |
| `Rulings.RecordedSuffices` | dwarpal/sessions.py:176-194 | the trimmed input that is recorded leads the gate to the very same decision |
| `Rulings.StoredItemsRoundTrip` | dwarpal/sessions.py:384 | re-reading the cart from the stored lines of an allowed decision gives the cart back |
| `Buying.RunMeans` | dwarpal/sessions.py:162-174 | the gate run of any call, on the tables: ALLOW iff agent and mandate are active, the cart is on offer, every cap has room and the order is reviewed; REVIEW iff only the review is missing; the lines are the requested items at catalog prices |
| `Orders.RunHasTerms` | dwarpal/policy.py:38-70 | in every state of every run the policy says some terms and no price is negative |
| `Orders.CreateStoresCart` | dwarpal/sessions.py:247-282 | a first create stores the requested cart on a new row with its key and hash, ready or waiting exactly as the tables demand, and the trail gains the requested items, the decision and the review request |
| `Orders.UpdateStoresCart` | dwarpal/sessions.py:284-310 | an update of an editable own session replaces the cart by the requested items, keeps the rest of the row, and announces those items; any other update changes nothing |
| `Orders.ApprovalKeepsCart` | dwarpal/sessions.py:319-342 | an approval files a review of the stored total and judges the same stored cart again, ready iff everything else holds and it still costs what was approved |
| `Orders.DeclineStopsOrder` | dwarpal/sessions.py:319-346 | a decline files the review and sets the order to not ready; a review of an order that does not wait for one changes nothing |
| `Issuing.IssuedAsAsked` | dwarpal/mandates.py:71-97 | issuing adds one active row with exactly the caps, categories and times asked for and revokes the agent's other mandates, terms untouched; terms that are not good change nothing |
| `Issuing.IssuedCapsHold` | dwarpal/mandates.py:71-97 | on every run the spend on an issued mandate stays within the three caps its create call asked for |
| `Issuing.IssuedCapsBind` | dwarpal/mandates.py:171-188 | on every run, while an issued mandate is in force, ALLOW means it pays and the total fits under each of the caps its create call asked for |
| `Issuing.RevokedMandateNeverPays` | dwarpal/mandates.py:115-120 | once revoked, no gate run is ever again on that mandate |
| `Issuing.RevokedAgentNeverBuys` | dwarpal/gate.py:239-244 | once an agent is revoked, every later gate run for it is DENY |
| `Completing.CompleteOutcome` | dwarpal/sessions.py:372-411 | in every case of a complete: link, hold, row and events iff the order may go ahead, is reviewed and the provider makes a link; denied, waiting, given back or unchanged otherwise |
| `Completing.ReadyHoldsNothing` | dwarpal/sessions.py:398-399 | on every run a ready session has no open reservation |
| `Polling.PollOutcome` | dwarpal/sessions.py:427-446 | an answered poll of a pending session: paid iff a new captured payment is listed, otherwise over iff there is a new failure, a dead link or a passed expiry, otherwise only what is new is filed |
| `Polling.OverOutcome` | dwarpal/sessions.py:494-517 | when an attempt is over: abandoned after the second attempt, on a denial or without a new link, with the reason on the trail; otherwise one new link for the cart at today's prices and the same hold |
| `Polling.NoPollOutcome` | dwarpal/sessions.py:415-426 | a failed poll, or a poll of a session that is not pending, changes no table |
| `Polling.DeadLinkEndsAttempt` | dwarpal/sessions.py:437-446 | at any clock, a dead link or a new failure leaves the session canceled with nothing held, or with a new link and one attempt more used |
| `Polling.LiveLinkWaits` | dwarpal/sessions.py:437-446 | with a live link before its expiry and nothing new listed, a poll changes nothing but a missing order id |
| `Cancelling.CancelOutcome` | dwarpal/sessions.py:570-609 | in every case of a cancel: withdrawn with the hold given back, paid after all if the last poll lists a new capture, or unchanged |
| `Refunding.RefundDecision` | dwarpal/gate.py:143-188 | the first of five statements about request, policy and tables that fails decides a refund |
| `Refunding.RefundOutcome` | dwarpal/sessions.py:521-566 | a refund is filed iff the five hold and the provider pays, for the requested amount against the first captured payment; otherwise no table changes |
| `Refunding.RefundsInTime` | dwarpal/sessions.py:537 | on every run a refund is filed no later than the stored number of days after the first capture, unless that number is 0 |
| `Evolution.EvolvesTransitive` | dwarpal/sessions.py:247-609 | what every call respects composes: frozen orders, closed reservations, revoked mandates and agents, settled reviews, a trail that only grows |
| `Evolution.ReconcileEvolves` | dwarpal/sessions.py:415-517 | reconcile, with any provider answers, respects it |
| `Runs.TraceIsRun` | dwarpal/sessions.py:247-609 | the states a list of calls goes through from a fresh shop form a run |
| `Runs.InitialInv` | dwarpal/context.py:44-54 | a fresh shop satisfies the invariant |
| `Safety.StepInv` | dwarpal/sessions.py:247-609 | every call, by any agent or the merchant, with any provider answer, keeps the invariant and only evolves the state |
| `Safety.RunInv` | dwarpal/sessions.py:247-609 | so does any list of calls |
| `Safety.RunStateInv` | dwarpal/sessions.py:247-609 | the invariant holds in every state of every run from a fresh shop |
| `Safety.RunStateEvolves` | dwarpal/sessions.py:247-609 | between any two states of a run the later has only evolved from the earlier |
| `Safety.CompleteStepInv` | dwarpal/sessions.py:372-411 | complete keeps caps, coupling, links and trail together, and never runs into the mandate store's refusal |
| `Safety.ReconcileStepInv` | dwarpal/sessions.py:415-517 | so does reconcile, whatever the provider answers |
| `Safety.RefundStepInv` | dwarpal/sessions.py:521-566 | so does a refund |
| `Accounts.CompleteKeeps` | dwarpal/sessions.py:385-411 | a complete keeps the accounting of every session and every mandate on every day, not only of its own |
| `Settlement.RetryKeeps` | dwarpal/sessions.py:494-517 | so does a retry, allowed, denied or refused by the provider |
| `Settlement.RefundWithKeeps` | dwarpal/sessions.py:521-566 | so does a refund |
| `Guarantees.CapsHold` | dwarpal/mandates.py:138-188 | on every run, for every mandate ever issued: live reservations less refunds within the total cap, each UTC day's within the daily cap, each reservation within the per-order cap |
| `Guarantees.TrailRebuildsTables` | dwarpal/sessions.py:247-609 | the trail alone rebuilds each session's status, attempt, link, hold and refunds and each mandate's spend; reserved events are committed plus released plus one while pending |
| `Guarantees.StatusMatchesMoney` | dwarpal/sessions.py:364-517 | pending iff one reservation is open; completed iff a captured payment is on file iff one is committed; canceled means nothing held or committed |
| `Guarantees.OrderFreezes` | dwarpal/sessions.py:305-309 | terminal states absorb; from the first link on the lines, total and mandate never change and the session is never editable again |
| `Guarantees.ReservationsCloseOnce` | dwarpal/mandates.py:154-169 | a reservation's terms never change, and once closed it stays closed |
| `Guarantees.RefundsConserved` | dwarpal/sessions.py:521-566 | a session's refunds sum to at most its first captured payment, have distinct references, and exist only for completed sessions |
| `Guarantees.RefundReturnsBudget` | dwarpal/mandates.py:184-188 | a refund lowers the credited mandate's total spend by its amount, down to 0, and changes no other figure, today's spend included |
| `Guarantees.ActiveMandateCreditedForItsOwnSpend` | dwarpal/sessions.py:556-561 | on every run, for every committed reservation, a credited mandate that can still be spent is the one that paid |
| `Crediting.CreditedIsPayer` | dwarpal/sessions.py:385-411 | after a complete that made a link, and anything after it, the mandate refunds credit is the one that paid iff the session carried the mandate in force when it was completed |
| `Crediting.RefundCreditsPayer` | dwarpal/sessions.py:556-561 | so any later refund of the session is credited to the mandate that paid under exactly that condition |
| `Crediting.CreditCanGoElsewhere` | dwarpal/sessions.py:556-561 | a run from a fresh shop, with the mandate replaced between create and complete, ends with 100 committed on mandate 1 and a refund of 40 credited to mandate 0 |
| `Guarantees.DecisionsReplay` | dwarpal/sessions.py:162-203 | every decision ever recorded is the gate's on the recorded input |
| `Guarantees.CompleteNeverCrashes` | dwarpal/sessions.py:398-400 | on no run does an allowed complete meet a missing mandate or a second open reservation |
| `Trails.EveryLinkIsBacked` | dwarpal/sessions.py:349-411 | the latest authoritative or retry decision before a payment link is an ALLOW for exactly its amount, with no other link since, while money is held; links are numbered 1 then 2; the first equals the amount held |
| `Trails.AtMostTwoLinks` | dwarpal/sessions.py:494-497 | no session ever gets a third link |
| `Trails.ReviewBindsExactTotal` | dwarpal/gate.py:361-371 | any recorded ALLOW above the threshold in force follows the session's latest review, an approval of exactly that total |
| `Idempotence.OneSessionPerKey` | dwarpal/sessions.py:248-256 | at most one session per agent and non-empty key, on every run |
| `Idempotence.CreateRepeats` | dwarpal/sessions.py:248-256 | repeating a create under its key, however much later, shows the first session and changes nothing; another body is refused |
| `Idempotence.CompleteRepeats` | dwarpal/sessions.py:374-376 | repeating a complete that made a link, however much later, makes no link, no hold and no event |
| `Idempotence.PaymentsRecordedOnce` | dwarpal/sessions.py:429-436 | a payment id is on file at most once per session, on every run |
| `Idempotence.RelistedPaymentsChangeNothing` | dwarpal/sessions.py:429-446 | a poll that re-lists old payments of a live link never uses up the second attempt |
| `Resolution.ExpiredPollMakesProgress` | dwarpal/sessions.py:437-446 | an answered poll at or after expiry settles the session or uses up exactly one attempt |
| `Resolution.TwoExpiredPollsResolve` | dwarpal/sessions.py:415-517 | any two answered polls, each at or after the expiry of the link then in force, leave the session terminal and its reservation closed, whatever happens in between |
| `Fairness.RoomForOwnHold` | dwarpal/mandates.py:171-188 | with its own live hold left out there is room for that hold again under every cap, by the cap invariant and the floor at 0 |
| `Fairness.RetryIsFair` | dwarpal/sessions.py:494-504 | if agent, mandate, policy, the cart's catalog entries and the day are unchanged, the retry run is again ALLOW for the same total, which is the amount held, whatever other sessions did |
| `Retries.SecondLinkAmount` | dwarpal/sessions.py:415-517 | a reconcile that ends a first attempt, with an allowed retry and a link made, touches no reservation and adds one link, for the repriced cart; it is for the amount held iff the cart still costs that much |
| `Retries.FairSecondLink` | dwarpal/sessions.py:415-517 | if agent, mandate, policy, the cart's catalog entries and the day are unchanged since the complete, that second link is for the amount held, whatever other sessions did |
| `Repricing.SecondLinkCanDiffer` | dwarpal/sessions.py:500-516 | a run from a fresh shop with a price edit while a payment is pending ends with links for 100 and 200 and 100 still held |
| `Transactions.AtMostOneOpen` | dwarpal/mandates.py:144-151 | in every interleaving of reserve, commit and release transactions a session has at most one open reservation |
| `Transactions.ClosedForGood` | dwarpal/mandates.py:154-163 | in every interleaving a closed reservation stays as it is and none is lost |
| `Transactions.InterleavedGateRuns` | dwarpal/sessions.py:385-399 | two ready sessions whose gate runs look at one state of a run and both are ALLOW on one mandate: after both reserve, the total cap holds iff spend less refunds had room for both totals, and the daily cap holds on every day iff they are on different days or the day had room for both |
| `Transactions.OverlappingCompletes` | dwarpal/sessions.py:385-411 | with the second gate run taken before the first call, both completes still go through and the table holds both reservations |
| `Overlap.DailyCapCanBeExceeded` | docs/decisions.md:18-21 | a run from a fresh shop with two ready carts of 600 that are both allowed on one mandate with a daily cap of 1000, and together reserve 1200 on one day |
| `Replay.Replay` | dwarpal/replay.py:48-76 | the loop counts and compares every recorded decision and lists each divergence with its seq and first differing part |
| `Replay.Compare` | dwarpal/replay.py:58-73 | re-running the right gate on the recorded input finds the first compared part that differs |
| `Replay.FirstDifferenceExact` | dwarpal/replay.py:58-73 | the part reported is the first of verdict, rule, reason, checks and total that differs; none iff all are equal |
| `Replay.ReportNamesExactly` | dwarpal/replay.py:67-75 | an event is listed iff something differs there, with its seq and the first part that differs |
| `Replay.ExamineMeans` | dwarpal/replay.py:58-73 | an event differs iff its input is on record and the gate disagrees with a compared part, and the named part really differs |
| `Replay.ExamineEvent` | dwarpal/replay.py:51-73 | irrelevant, without input, identical or different, as the source tells them apart |
| `Replay.ReportCountsEveryDecision` | dwarpal/replay.py:50-75 | every decision is counted once, as identical, divergent or skipped |
| `Replay.EveryRunReplays` | dwarpal/replay.py:48-76 | replaying the trail of any run finds every decision identical and skips none |
| `Replay.ForgeryFound` | dwarpal/replay.py:67-75 | a decision forged in any compared part of any event of any run is reported at that event and nowhere else |
| `CrossSell.CandidatesAreTheCheapest` | dwarpal/crosssell.py:42-63 | candidates are eligible, within headroom, cheapest first; an eligible product is left out only when the list is full of products that come before it |
| `CrossSell.SortSorts` | dwarpal/crosssell.py:62 | sorting yields the same products, ordered |
| `CrossSell.FakePick` | dwarpal/crosssell.py:78-89 | offers the best two candidates by shared tags, price and id |
| `CrossSell.LLMPick` | dwarpal/crosssell.py:103-131 | any model reply yields the first two distinct candidates it names, no reply yields none |
| `OfferLaws.OnlyTheTotalMatters` | dwarpal/gate.py:313-377 | for an otherwise acceptable cart the total alone decides between ALLOW, REVIEW and denial by one of the four cap rules |
| `OfferLaws.HeadroomIsExact` | dwarpal/crosssell.py:29-39 | one more unit of an eligible product is never denied within the headroom and always denied, by a cap rule, above it |
| `OfferLaws.NamelessIsDenied` | dwarpal/gate.py:228-230 | a product with an empty id makes any cart malformed |
| `OfferLaws.CandidatesAreSafe` | dwarpal/crosssell.py:42-63 | accepting a candidate is never denied iff its id is not empty, and then adds exactly its price |
| `NamelessOffers.NamelessCandidate` | dwarpal/catalog.py:61-83 | a catalog in which a product with an empty id is a candidate for an allowed cart and accepting it is denied |
| `OfferLaws.LLMOffersAreGood` | dwarpal/crosssell.py:119-131 | at most two offers, for different products, all candidates, whatever the model replies |
| `OfferLaws.FakeOffersAreTheBest` | dwarpal/crosssell.py:78-89 | a candidate the deterministic picker passes over comes no earlier than both it offers |
| `OfferLaws.FakeOffersAreGood` | dwarpal/crosssell.py:78-89 | the same for the deterministic picker |
| `Picking.CandidateIffNotDenied` | dwarpal/crosssell.py:42-63 | while fewer than eight are offered, a named product is a candidate iff it is in stock and the gate would not deny the cart with one unit of it added |
| `Picking.CandidatesInOrder` | dwarpal/crosssell.py:62-63 | candidates come cheapest first, then by id |
| `Picking.FakePicksTheBest` | dwarpal/crosssell.py:78-89 | two candidates, or all if fewer, that no other beats by tags shared with the cart, then price, then id |
| `Picking.MentionedAreNamed` | dwarpal/crosssell.py:117-131 | a reply yields exactly the candidates it names |
| `Picking.MentionedInOrder` | dwarpal/crosssell.py:117-131 | in the order in which it first names them |
| `Nonces.NonceStore.Remember` | dwarpal/agents.py:62-67 | true iff the agent never presented the nonce, which is then remembered with its time |
| `Nonces.NonceStore.Prune` | dwarpal/agents.py:69-71 | forgets exactly the nonces older than the given age |
| `Nonces.NonceStore.RequireSignature` | dwarpal/api.py:113-134 | the guards in order; only an accepted request is remembered, and only then are old nonces forgotten |
| `Nonces.NonceReuseTakesTime` | dwarpal/api.py:132-134 | an agent's nonce is accepted again only after more than the pruning age |
| `Nonces.ReplaySafe` | dwarpal/api.py:113-134 | with a clock that never goes back, the same agent, nonce and timestamp are accepted at most once |
| `Nonces.NewNonceAccepted` | dwarpal/api.py:113-134 | a fresh, correctly signed request under an unused nonce is always accepted |
| `Nonces.AcceptedIff` | dwarpal/api.py:113-134 | accepted iff the three headers are there, the timestamp reads and is at most 300 seconds off, the signature verifies and the nonce is not remembered |
| `Nonces.TwiceTheSkewIsTight` | dwarpal/api.py:134 | every run is safe iff the pruning age is at least twice the allowed skew |
| `Ledger.AppendKeepsVerified` | dwarpal/ledger.py:90-104 | appending to a verified chain keeps it verified and records exactly that event |
| `Ledger.AuditLedger.constructor` | dwarpal/ledger.py:84-86 | a new ledger is empty |
| `Ledger.AuditLedger.Append` | dwarpal/ledger.py:90-104 | adds one correctly linked and hashed row, and the recorded trail grows by that event |
| `Ledger.AuditLedger.CurrentAnchor` | dwarpal/ledger.py:131-133 | seq and hash of the last row, or the genesis anchor |
| `Ledger.Verify` | dwarpal/ledger.py:135-164 | the loop accepts exactly an intact chain that still holds the anchored event, and otherwise names the least bad row or what happened at the anchor |
| `LedgerLaws.EqualHashesAgree` | dwarpal/ledger.py:29-30 | two verified ledgers with one hash at a row record the same events up to it, or collide |
| `LedgerLaws.AnchorPinsHistory` | dwarpal/ledger.py:131-164 | a ledger accepted with an anchor taken from another verified ledger agrees with it on every event up to the anchor, or collides |
| `LedgerLaws.AppendsKeepVerified` | dwarpal/ledger.py:90-104 | any sequence of appends keeps the chain and the old rows and records exactly the events submitted |
| `LedgerLaws.GrownLedgerAccepted` | dwarpal/ledger.py:155-164 | an anchor taken from a verified ledger is accepted after any sequence of appends |
| `LedgerLaws.TruncationNeedsAnchor` | dwarpal/ledger.py:155-160 | a cut tail is reported with an anchor and goes unnoticed without |
| `LedgerLaws.EditLocalised` | dwarpal/ledger.py:138-154 | an edited row is reported there, at the next row if its hash was recomputed, or nowhere in exactly the stated cases |
| `LedgerLaws.SilentEditDetected` | dwarpal/ledger.py:176-197 | changing what a row says without recomputing its hash is reported at that row, or the hash collides |
| `LedgerLaws.AnyColumnCounts` | dwarpal/ledger.py:135-154 | changing any column of a row but its hash is reported there, or two different inputs have one digest |
| `LedgerLaws.HashEditDetected` | dwarpal/ledger.py:152-153 | replacing a stored hash is reported at that row |
| `LedgerLaws.ReformattingUnnoticed` | dwarpal/ledger.py:144-154 | payload text that reads the same verifies the same |
| `LedgerLaws.DeletionDetected` | dwarpal/ledger.py:142-143 | deleting a row that is not the last is reported at the row after it |
| `LedgerLaws.HeadPinsLedger` | dwarpal/ledger.py:124-133 | equal heads mean equal trails, or a collision |

## Left out

- HTTP routing, bearer keys, dashboard, templates, command line, export, diagrams and reports: input, output and presentation.
- The payments adapter and webhooks: the provider's answers are arbitrary, so `FakePayments` is one instance of them; the webhook only triggers a reconcile. Failures other than the port's own error type are not modelled.
- SQLite, SHA-256, Ed25519 and JSON text: tables are sequences with the schema's uniqueness, the rest are arbitrary functions. Transactions are atomic by construction; rollback and nested transactions (`dwarpal/db.py:49-63`) are not modelled.
- Interleaving of calls: in a run one call is one step. `Transactions` covers the reservation table under any interleaving and two overlapping completes; other calls are not interleaved.
- Display columns of a session (messages, offers, link url, last decision, update times) and the `crosssell.*` events that mention offers: nothing reads them back into the accounting.
- `reconcile_all`: it is a reconcile for each pending session in turn.
- Policy values that are floats, objects or strings where a number is compared, and catalog prices that are not integers; unhashable ids in a cart or in a model's reply.
- Whitespace beyond ASCII when names, reasons and references are stripped.
- The English of details and reasons, the reason text of an offer, and the prompt sent to a model.
- Agent names, public keys and API key hashes; registration is the new row.
- Rulings.JudgeSpendable: is about the tables the gate run read; `Guarantees.CapsHold` carries it over runs of serialised calls.
- Shop.Storefront.Serve: authentication has already named the agent; a call under an unknown agent is dropped.
- Nonces.NonceStore.RequireSignature: the target stands for method, path, query and body together.
- Ledger.Verify: rows are read in seq order; the database keeps seq unique.

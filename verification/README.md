# agent-wallet: a verified model of its hard core

A Dafny model of the parts of agent-wallet (a self-custodial Lightning wallet for agents)
whose correctness is least obvious from reading the code, with proofs of what they promise.
`dafny verify dfyconfig.toml` checks all of it.

**Bech32 and BOLT 11** (`Numerals`, `Regroup`, `Checksum`, `Utf8`, `Text`, `Lnurl`, `Bolt11`,
`Bolt11Amount`). The LNURL decoder and the offline invoice reader, loop by loop. The checksum is
shown linear and injective over GF(2), which gives burst detection at any length and exactly one
checksum per payload; bit regrouping is a bijection for every pair of widths; the decoder accepts
exactly the encoder's texts (the encoder, after BIP-173 section "Bech32" and LUD-01, exists only as
a specification here); the tagged-field walk inverts a printer of fields (BOLT 11, section "Tagged
Fields"); amounts are exact for all five multipliers (BOLT 11, section "Human-Readable Part").

**The idempotent payment protocol** (`Idempotency`, `Spending`, `PaymentProtocol`, `PaymentLedger`,
`PaymentReplay`, `PaymentHandlers`). `pay_invoice`, `send_onchain`, `open_channel` and `pay_offer`
are one step machine: any number of requests of one API key, under any idempotency keys, interleaved
with each other and with the node at every suspension point; the spend check and the velocity check
are two steps, and an exception may strike at any point. The main result is about *prudent* runs, a
condition on what a handler sees: no exception between the LND call and the slot update except after
a definite failure, and no release of a pending slot that another request has claimed since its hash
was looked up. In every prudent run at most one send per key has settled or may settle
(`AtMostOneLiveSend`). Neither condition can be dropped: `FaultPhaseExactly` and `ReleaseExactly`
show for each phase, and for a release, that it can do harm in a reachable state exactly if it is
not prudent, and `HarmfulExactly` that from a harmful step a plain retry leads to a second send
whenever the limits have room for it. A broadcast in doubt blocks its key through every run, prudent
or not; a completed slot is final, and it, like every replayed response, is backed by a settled
send. A replay is not tied to the body that paid: reconciliation does not look at the fingerprint,
and `ForeignReplayExactly` says exactly when the response goes to another body. The ledger is
conserved in every run, and what may exceed the spend limit is exactly bounded (`Conservation`,
`OverrunHappens`); a failure that only reconciliation learns of is never taken off it
(`DeadStillCharged`). Every order to LND is the one its request and reservation call for; within the
reservation to the satoshi, and to the millisatoshi exactly if the invoice is for no more than the
whole sats that LND reports (an invoice for a fraction of a satoshi more is reserved, and capped,
without the fraction: `FractionExceeds`). The handlers are also written as code over the store and
the ledger, and each is proved to be a run of the machine with exactly the outcome, the reply and
the order to LND that slot, ledger and LND answer dictate.

**Concurrency and admission** (`Concurrency`, `BodyReplay`, `ChannelMix`). Per-key slots, the
in-flight gauge and the shutdown drain; body draining and replay; the one-active-run guard.

**Durable state** (`AuditChain`, `KeyRotation`, `DefaultReceive`). Re-anchoring the audit hash chain,
re-encryption across key rotations, and the default receive offer.

## Hypotheses

- Payments: LND is truthful when it says that a send succeeded or failed, and its payment list when
  it says that a payment failed; that a payment it calls succeeded was made by this API key is
  needed by `SuccessIsBacked` alone. LND moves no more than it was ordered to (only
  `FrugalStaysWithin` needs it) and reports an invoice's whole sats rounded down; an LND error text
  is not empty. That LND itself refuses a second payment of a hash in flight is not used: a send is
  a call that LND may act on, and the runs that reach a second one fetch a new invoice, as
  `pay_offer` does, or broadcast. The Lua scripts are atomic, and so is the read-then-delete of the
  two release functions (nothing suspends inside them). Taking both windows back is one step, and so
  is a velocity refusal with the slot release that follows it. A request body stands for its
  fingerprint (no hash collisions). Slots do not expire and reservations do not age out of the
  window; Redis and the database are reachable. Exceptions and cancellations between the LND call
  and the slot update are a step of the machine, not excluded.
- Text: what the library's `lower`, `upper` and `strip` make of a text is a parameter of the two readers;
  `RoundTrip`, `TextBurst` and `NormalOf` are about ASCII, and decimal digits are ASCII.
- Concurrency: nothing suspends between the shutdown check and the gauge, as in the code.
- Channel mix: each statement reads what is committed; the executor leaves terminal runs alone.
- Audit: the hash of a document is collision-free and not empty (only `HeadDetermines` needs it).
- Keys: Fernet is ideal, key derivation is injective, keys are not empty, and a failed pass is rolled back.
- Default offer: the partial unique index is checked when a request commits; a request writes the
  columns that it changed since it loaded the row; nothing sets `deleted_at`.

Where code and documentation differ the model follows the code. Migration 051 says that the digest
lookup of an execute is limited to non-terminal runs; it is not: `DigestsRepeat` shows what follows
and `RepeatsExactly` exactly when. The docstring of `_set_default_receive` promises that the promoted offer becomes the default;
`PromotesExactly` gives the exact condition and `StaleSetDefault` a run without it.

## Model

| member | source | states |
|---|---|---|
| Regroup.ConvertBits | app/core/bech32_lnurl.py:40-58 | the loop with its unmasked accumulator computes the base change of the whole number that the digits spell, for all widths, padding or refusing as asked |
| Regroup.From5BitBytes | app/core/bolt11.py:64-75 | the unpadded packer yields the whole bytes of the same number and drops the rest |
| Regroup.SplitThenJoin | app/core/bech32_lnurl.py:40-58 | regrouping to narrower digits with padding and back without returns every input, for all widths |
| Regroup.JoinThenSplit | app/core/bech32_lnurl.py:40-58 | every sequence that the strict direction accepts re-encodes to itself |
| Regroup.JoinInjective | app/core/bech32_lnurl.py:40-58 | no two accepted symbol sequences regroup to the same bytes |
| Checksum.Polymod | app/core/bech32_lnurl.py:25-33 | the loop computes the fold of the checksum step over 30-bit states |
| Checksum.StepLinear | app/core/bech32_lnurl.py:25-33 | the checksum step is linear over GF(2) |
| Checksum.StepInjective | app/core/bech32_lnurl.py:25-33 | the step has a trivial kernel, so it is injective on 30-bit states |
| Checksum.FeedLinear | app/core/bech32_lnurl.py:25-33 | the whole fold is linear, for inputs of any length |
| Checksum.FeedZeros | app/core/bech32_lnurl.py:25-33 | feeding zeros never sends a nonzero state to zero |
| Checksum.BurstDetected | app/core/bech32_lnurl.py:25-33 | at any length, a list that passes never passes again after a nonzero change within six consecutive symbols |
| Checksum.UniqueChecksum | app/core/bech32_lnurl.py:25-37 | for every payload exactly one six-symbol suffix passes, namely the polymod of the zero-extended input XOR 1 cut into six groups |
| Utf8.DecodeIffEncode | app/core/bech32_lnurl.py:98-101 | strict UTF-8 decoding gives a text exactly for the bytes that encode it |
| Lnurl.ReadSymbols | app/core/bech32_lnurl.py:85-90 | the loop over the data part yields the symbol of each character, or fails exactly if one is not in the alphabet |
| Lnurl.DecodeData | app/core/bech32_lnurl.py:91-101 | checksum test, regrouping and UTF-8 succeed with a URL exactly if the symbols carry its bytes and a valid checksum |
| Lnurl.DecodeLnurl | app/core/bech32_lnurl.py:61-101 | for all inputs, all case mappings and all URLs: it returns the URL exactly if the input is one of its own two case forms, within 2048 characters, and its lower form is the reference encoder's text |
| Lnurl.RoundTrip | app/core/bech32_lnurl.py:61-101 | every URL whose encoding is within the limit survives encoding and decoding, in lower and in upper case |
| Lnurl.OneUrlOneText | app/core/bech32_lnurl.py:61-101 | two accepted texts, under any case mapping, decode to the same URL exactly when their lower forms are equal |
| Lnurl.TextBurst | app/core/bech32_lnurl.py:61-101 | corrupting up to six consecutive characters of an accepted text never leaves an accepted one |
| Bolt11.NormalOf | app/core/bolt11.py:89-91 | normalising strips exactly the surrounding white space and the case |
| Bolt11.To5Bit | app/core/bolt11.py:54-61 | the symbols of the characters, or nothing if one is not in the alphabet |
| Bolt11.ReadHash | app/core/bolt11.py:125-129 | the payload of a 52-symbol field as 64 hex digits of its 32 bytes |
| Bolt11.WalkTagged | app/core/bolt11.py:107-131 | the index-driven walk computes the recursive walk over fields |
| Bolt11.WalkIffFound | app/core/bolt11.py:107-131 | the walk returns a hash exactly if the text is printed fields without a payment hash, then a payment-hash field that reads it, then anything |
| Bolt11.PaymentHash | app/core/bolt11.py:78-131 | for every stripped and lower-cased invoice: a hash is returned exactly if the tagged section's first payment-hash field reads it |
| Bolt11.ParserUndoesPrinter | app/core/bolt11.py:92-131 | for every list of fields printed between a 7-group timestamp and the 104-group signature with checksum, the result is the hash of the first `p` field of length 52, or none |
| Bolt11.HashFieldRoundTrip | app/core/bolt11.py:64-75 | a 32-byte hash printed as a field reads back as itself |
| Bolt11.SameHashExactly | app/core/bolt11.py:125-129 | two payment-hash fields read as the same text exactly if they carry the same 32 bytes |
| Bolt11Amount.GrammarMatches | app/core/bolt11.py:38-51 | every text of the prefix grammar matches, and with its own digits and multiplier: one parse |
| Bolt11Amount.MatchesGrammar | app/core/bolt11.py:38-51 | whatever matches is a text of the grammar |
| Bolt11Amount.SatsExact | app/core/bolt11.py:151-173 | the per-multiplier arithmetic is "pico-BTC divided by 10000 if divisible" for all five multipliers |
| Bolt11Amount.ExactAmount | app/core/bolt11.py:134-173 | an invoice that bills an amount of pico-BTC reads as that amount in whole sats, or as none if it is not whole |
| Bolt11Amount.OnlyBilled | app/core/bolt11.py:134-173 | every amount read is one the invoice bills |
| Bolt11Amount.AmountsAgree | app/core/bolt11.py:134-173 | an invoice bills at most one amount, and invoices that bill the same amount read the same |
| Idempotency.Store.LookupOrReserve | app/core/idempotency.py:160-255 | claims a free slot, replays a completed one for the same body, refuses otherwise, and changes nothing but a free slot |
| Idempotency.Store.CompareAndSet | app/core/idempotency.py:81-88 | writes over a free slot and over a reservation, never over a completed result |
| Idempotency.Store.StoreResult | app/core/idempotency.py:258-298 | the compare-and-set to completed never overwrites a completed slot |
| Idempotency.Store.MarkPending | app/core/idempotency.py:355-394 | the compare-and-set to pending never overwrites a completed slot |
| Spending.SendWithinBudget | app/api/payments.py:315-341 | the most that LND may move on an order exceeds the reservation by exactly what rounding took off the invoice: within it to the satoshi, and to the millisatoshi exactly if nothing was taken off; the same for the cap, through msat round-up and the five per cent budget |
| PaymentProtocol.StepKeeps | app/api/payments.py:217-438 | every step that is not harmful keeps the invariant that ties slots, claims, phases and fates |
| PaymentProtocol.AtMostOneLiveSend | app/api/payments.py:268-438 | in every prudent run, a condition on what the handler sees, at most one send per idempotency key has settled or may settle, and its slot is not free |
| PaymentProtocol.PrudentIsCareful | app/api/payments.py:217-438 | no step of a prudent run is harmful |
| PaymentProtocol.CarefulIsSafe | app/api/payments.py:268-438 | the same safety for every run without a step that frees a slot under a send that may settle |
| PaymentProtocol.FaultPhaseExactly | app/api/payments.py:429-438 | for each phase: an exception there is harmful in some reachable state if and only if the phase is past the send and not a definite failure |
| PaymentProtocol.ReleaseExactly | app/api/payments.py:217-264 | a release is harmful in some reachable state if and only if the slot was claimed since it was peeked |
| PaymentProtocol.SendOnlyAfterFailure | app/api/payments.py:268-438 | when a send starts, every other send under its key is definitely dead |
| PaymentProtocol.PendingBroadcastStays | app/api/payments.py:442-578 | no step of any handler, harmful or not, changes a pending slot without a hash, or lets a request under its key past its claim |
| PaymentProtocol.PendingForever | app/api/channels.py:110-240 | so a key whose broadcast may have happened stays blocked, slot unchanged, through every run of all handlers, Lightning retries under the key included |
| PaymentProtocol.PendingBlocks | app/api/payments.py:217-264 | a pending slot without a hash blocks its key exactly if no request under it is in the middle of a reconciliation |
| PaymentProtocol.OnchainLeavesPending | app/api/payments.py:442-578 | no step of an on-chain handler changes any pending slot |
| PaymentProtocol.FreshActIsHarmless | app/api/payments.py:217-264 | dropping a pending slot is harmless if nobody has claimed it since it was peeked |
| PaymentProtocol.AtomicReconciliation | app/api/bolt12.py:2371-2402 | peek, lookup and release in one piece are always harmless |
| PaymentProtocol.HarmBreaks | app/api/payments.py:429-438 | for every configuration: after a harmful step a plain retry of the same request, with any payment hash, leads to two live sends under one key, if the limits have room for it |
| PaymentProtocol.HarmfulExactly | app/api/payments.py:217-438 | for every configuration with room for a retry: a step opens a way to a double send if and only if it is harmful |
| PaymentProtocol.FaultHarms | app/api/payments.py:429-438 | an exception in each phase from the LND call to the slot update, a definite failure apart, is reachable and harmful |
| PaymentProtocol.StaleActHarms | app/api/bolt12.py:2371-2402 | reconciliation in pieces reaches a harmful release: three attempts at one offer, each with its own invoice, and two of the invoices sent |
| PaymentLedger.StepBalances | app/core/rate_limit.py:271-374 | every step, harmful or not and whatever LND reports, keeps ledger and requests in balance, the velocity limit, and the spend limit up to overruns |
| PaymentLedger.Conservation | app/core/rate_limit.py:135-374 | after every run, whatever LND reports, the ledger total is the sum of reservations (open or unknown), settled sats (paid) and nothing (failed), the velocity limit holds, and the spend limit is exceeded by no more than payments ran over their reservations |
| PaymentLedger.FrugalStaysWithin | app/core/rate_limit.py:324-355 | if LND moves no more than it was ordered to, nothing runs over and the spend limit holds |
| PaymentLedger.OverrunHappens | app/core/rate_limit.py:324-355 | for every excess: a reachable payment reported at that much more than its reservation takes the window over its limit by exactly that |
| PaymentLedger.DeadStillCharged | app/api/payments.py:217-264 | in every run a send that is definitely dead is still charged if and only if its own handler did not book the failure |
| PaymentLedger.DoubtStaysCharged | app/api/payments.py:217-264 | a payment that ended in doubt stays charged at its reservation through every run, whatever reconciliation finds |
| PaymentLedger.ReconciledStillCharged | app/api/payments.py:262-263 | a reachable state in which reconciliation has found a payment failed and freed its slot, and the reservation stands |
| PaymentLedger.EverySendWithinBudget | app/api/bolt12.py:2598-2605 | in every run, harmful or not, every send carries the order its request calls for, within reservation and LND_MAX_PAYMENT_SATS to the satoshi, and to the millisatoshi exactly if the invoice has no fraction; on-chain, amount and fee estimate are the reservation |
| PaymentLedger.StepFunds | app/api/payments.py:315-358 | every step, harmful or not, keeps that a request past the cap has a budget and a send its order |
| PaymentLedger.FractionExceeds | app/api/payments.py:315-358 | a reachable send of an invoice for 1999 msat whose order exceeds reservation and cap by 999 msat |
| PaymentLedger.ReturnMatches | app/api/bolt12.py:2855-2886 | when any attempt returns, slot Done/Pending/free matches ledger settled/reserved/nothing and, for BOLT 12, row PAID/OPEN/FAILED |
| PaymentReplay.DoneForever | app/core/idempotency.py:81-88 | through every run of all handlers a completed slot keeps its response, and once nobody under its key is spending nobody ever does |
| PaymentReplay.SuccessIsBacked | app/api/payments.py:217-264 | in every run, harmful or not, in which the hashes looked up are paid by this API key alone, a completed slot and a replayed response are backed by a settled send of a request under the key, or with the payment hash of one |
| PaymentReplay.ForeignReplayExactly | app/api/payments.py:286-302 | at a step: a response goes to a body other than the one that holds the slot if and only if reconciliation acts on a payment that succeeded and the slot has another fingerprint |
| PaymentReplay.ForeignReplayRefusesPayer | app/api/payments.py:217-264 | the slot then belongs to the other body, and the body that paid is refused |
| PaymentReplay.ForeignReplayHappens | app/api/payments.py:286-302 | a reachable run with such a replay |
| PaymentHandlers.StatusClass | app/core/utils.py:21-40 | an LND status line leaves the broadcast unknown exactly if it is a 5xx |
| PaymentHandlers.RateLimiter.CheckSpend | app/core/rate_limit.py:135-201 | admits exactly when the charged total and the amount fit the limit, and charges only then |
| PaymentHandlers.RateLimiter.CheckVelocity | app/core/rate_limit.py:204-268 | admits exactly below the velocity limit, and counts only then |
| PaymentHandlers.RateLimiter.CheckPaymentLimits | app/core/rate_limit.py:271-298 | admits exactly when both limits do; a spend that velocity refuses is taken back whole |
| PaymentHandlers.Servable | app/api/payments.py:268-438 | a handler may start in every state reached without a harmful step |
| PaymentHandlers.Reconcile | app/api/payments.py:217-264 | resolves only a pending slot with a hash, stores on SUCCEEDED, frees on FAILED, else leaves it |
| PaymentHandlers.SpendInvoice | app/api/payments.py:308-438 | the try block with its release flag leaves slot, ledger and reply as the machine does for this amount, limit and LND answer, and orders the invoice's amount within the effective fee limit |
| PaymentHandlers.PayInvoice | app/api/payments.py:268-438 | a whole call is a run of the machine with exactly the outcome, status and order to LND that slot, lookup, budget, limits and LND answer dictate |
| PaymentHandlers.ReplaysExactly | app/api/payments.py:286-302 | a whole call is answered with an earlier response if and only if the recorded payment is found settled, whatever body asks, or the slot is completed for this body |
| PaymentHandlers.AnswersForeignExactly | app/api/bolt12.py:2320-2336 | a whole call answers the payment of another body if and only if the slot is that body's, pending with a hash, and the lookup succeeds |
| PaymentHandlers.SpendOnchain | app/api/payments.py:466-578 | the same for the try block of an on-chain send, where a 4xx is final and a 5xx or a lost connection is not; the order carries the amount and the rate that was charged |
| PaymentHandlers.SendOnchain | app/api/payments.py:442-578 | a whole call is a run of the machine with exactly the dictated outcome; the fee rate is the caller's, else the mempool's, clamped |
| PaymentHandlers.OpenChannel | app/api/channels.py:110-240 | the same for opening a channel |
| PaymentHandlers.SettleOutbound | app/api/bolt12.py:2456-2571 | the row becomes PAID, FAILED or stays OPEN exactly as routes and HTLC status say, only a send in doubt is ambiguous, and LND is ordered the given amount and fee limit exactly if there is a route |
| PaymentHandlers.PerformPayOffer | app/api/bolt12.py:2574-2886 | caps, fetch, reservation, settlement and reconciliation together leave row, ledger, reply status and order as the answer dictates, and nothing after a refusal |
| PaymentHandlers.SpendOffer | app/api/bolt12.py:2338-2368 | the slot follows the row: stored on PAID, pending on OPEN, freed otherwise and on every exception |
| PaymentHandlers.PayOffer | app/api/bolt12.py:2295-2368 | a whole call is a run of the machine with exactly the dictated outcome, status, order and row |
| Concurrency.Conservation | app/core/concurrency.py:74-156 | in every interleaving the gauge is the number of running handlers, each map entry is the cap less what the key holds, no key holds more than the cap, the map holds exactly the keys with a slot and at most 16384, and is empty when all is done |
| Concurrency.ClampNeverBites | app/core/concurrency.py:143-156 | the gauge is positive at every exit, so each exit lowers it by exactly one |
| Concurrency.AdmittedExactly | app/main.py:1167-1208 | a request is let in exactly if it is a bypass, or the server is not draining and its key is below the cap and trackable |
| Concurrency.DrainSafe | app/core/concurrency.py:36-62 | once the gauge reads zero after shutdown began, only bypass handlers run, then and after any further steps |
| Concurrency.Gate.TryAcquire | app/core/concurrency.py:94-121 | claims a slot exactly if one is available and the key is tracked or can be |
| Concurrency.Gate.Release | app/core/concurrency.py:124-137 | gives one slot back, drops an idle key, and ignores an unknown one |
| Concurrency.Gate.Admit | app/main.py:1167-1199 | the middleware up to the handler is the arrival step of the machine |
| Concurrency.Gate.Leave | app/main.py:1201-1208 | the middleware after the handler is the finishing step of the machine |
| Concurrency.IsBypassed | app/main.py:1137-1143 | a path bypasses the drain exactly if it starts with one of the five prefixes |
| Concurrency.WaitForDrain | app/core/concurrency.py:46-62 | its polls read the gauge along a run: True exactly if the poll it stops at reads zero, with work and time left before, False only past the deadline; and if True after shutdown began, no non-bypass handler runs then or after any further steps |
| BodyReplay.Replay.Receive | app/main.py:1244-1252 | hands out the next of what remains, buffer first, then the connection |
| BodyReplay.Replay.Read | app/main.py:1244-1252 | a handler that reads n messages reads the first n of the stream, in order |
| BodyReplay.LimitBodySize | app/main.py:1211-1255 | the handler is called exactly if the body ends within 1 MB, it is refused exactly on overflow or a bad Content-Length, and what the handler will receive is the original stream |
| ChannelMix.OneActiveRun | app/api/channel_mix.py:61-97 | with the advisory lock at most one non-terminal run is ever committed, over all interleavings with stops, ticks and rollbacks |
| ChannelMix.TerminalStays | app/models/channel_mix_run.py:314-328 | a terminal run keeps its state through every run |
| ChannelMix.OverlapBreaksExactly | app/api/channel_mix.py:396-482 | whatever happens between guard and commit, with or without the lock, the rule is broken exactly if a run committed after the guard is still active |
| ChannelMix.NoLockTwoRuns | app/api/channel_mix.py:79-97 | without the lock two active runs are reachable |
| ChannelMix.DigestsRepeat | alembic/versions/051_mix_run_digest_not_unique.py:35-39 | even with the lock one plan can be committed twice, after which its lookup fails |
| ChannelMix.RepeatsExactly | app/api/channel_mix.py:397-482 | whatever happens between lookup and commit, the commit repeats its digest if and only if a run with it was committed after the lookup |
| ChannelMix.LookupExactly | app/api/channel_mix.py:397-409 | the lookup goes on, returns the run or fails exactly if none, one or several runs carry the digest |
| ChannelMix.RepeatedRunsEnded | app/api/channel_mix.py:396-482 | under the lock all earlier runs of a digest have ended when it is committed again, so at most one of them is active |
| ChannelMix.LatestIsActive | app/api/channel_mix.py:279-290 | the guard finds the latest active run, and nothing exactly if none is active |
| ChannelMix.Database.FindDigest | app/api/channel_mix.py:397-401 | the lookup returns a row with the digest if there is one, and tells whether there are more |
| ChannelMix.Database.ActiveRun | app/api/channel_mix.py:279-290 | the loop finds the latest active run |
| ChannelMix.Database.Execute | app/api/channel_mix.py:396-482 | a call is a run of the machine; it inserts exactly if no run has the digest and none is active, else it returns the one there is |
| ChannelMix.Database.StopRun | app/api/channel_mix.py:649-682 | force ends the run, a graceful stop only flags it, a terminal run keeps its state, an unknown one is reported |
| AuditChain.Table.Upgrade | alembic/versions/044_audit_chain_keyed_hmac.py:82-103 | the row loop leaves all rows in place and their log a linked chain over the same rows |
| AuditChain.ChainLinks | alembic/versions/044_audit_chain_keyed_hmac.py:51-103 | every re-anchored entry names the hash before it and hashes itself |
| AuditChain.NoChangeExactly | alembic/versions/008_audit_retention_chain_repair.py:22-23 | re-anchoring changes nothing if and only if the chain is linked already |
| AuditChain.Idempotent | alembic/versions/008_audit_retention_chain_repair.py:89-98 | re-anchoring gives a linked chain, and doing it again changes nothing |
| AuditChain.OrderIndependent | alembic/versions/044_audit_chain_keyed_hmac.py:82-103 | the chain does not depend on the physical order of the rows or on old hashes |
| AuditChain.HeadDetermines | alembic/versions/044_audit_chain_keyed_hmac.py:51-79 | two linked chains have the same head hash if and only if they have the same length and rows up to how timestamps are written |
| KeyRotation.Process.LegacyFernet | app/core/encryption.py:50-60 | the cached Fernet is the freshly derived one for the configured secrets, and for another secret exactly if it is the first asked for |
| KeyRotation.Process.Encrypt | app/core/encryption.py:63-73 | the result is current, opens to the text under the current secret and under no other |
| KeyRotation.Process.DecryptV2 | app/core/encryption.py:102-123 | reads with the current key, else with the previous one |
| KeyRotation.Process.DecryptLegacy | app/core/encryption.py:126-144 | the same under the static salt, keeping both caches right |
| KeyRotation.Process.Decrypt | app/core/encryption.py:76-99 | reads whatever the keys can read, static-salt values only if allowed |
| KeyRotation.Process.ReEncrypt | app/core/encryption.py:147-165 | unchanged exactly if current, unreadable exactly if no key reads it, else the same text under the current key |
| KeyRotation.Table.Upgrade | alembic/versions/004_reencrypt_fields.py:33-50 | the pass succeeds if and only if every stored value reads under the current or the previous key; it renews every value, or changes nothing |
| KeyRotation.RotationKeeps | alembic/versions/004_reencrypt_fields.py:33-50 | after a rotation the pass succeeds, loses nothing and leaves all values under the new key alone |
| KeyRotation.SecondPassIdle | app/core/encryption.py:147-165 | a pass over current values changes nothing |
| KeyRotation.RotationsKeep | app/core/encryption.py:63-165 | over every history of new rows and rotations all that was stored reads as stored with the current key alone, and one more pass changes nothing |
| DefaultReceive.OneDefault | alembic/versions/012_bolt12_default_receive.py:42-51 | the index, which is taken to hold of what a commit writes, also survives the writes it is not asked about, in every interleaving |
| DefaultReceive.DefaultExactly | app/api/bolt12.py:1279-1482 | for every statement of every request and every key: exactly when the key has a default afterwards; it is lost only to a disable that loaded it as default, or to a set-default overtaken since it loaded its row as default |
| DefaultReceive.DefaultOverRuns | app/api/bolt12.py:1279-1482 | the same over every run: the per-statement condition, read off what each request loaded and the table it meets, decides whether the key ends with a default |
| DefaultReceive.NoBlackHole | app/api/bolt12.py:1358-1428 | gets and configures, with failures and lost races, never leave a key that has a default without one |
| DefaultReceive.ConflictsExactly | app/api/bolt12.py:1394-1420 | configure ends in 409 exactly if the key has a live default that it did not demote |
| DefaultReceive.FailsExactly | app/api/bolt12.py:1444-1467 | set-default trips the index exactly if it sets the flag while the key has another live default that it did not demote |
| DefaultReceive.NextKeeps | app/api/bolt12.py:1279-1482 | every statement of every request keeps the index, changes only offers of the caller's key, and those only in flag and status |
| DefaultReceive.OthersUntouched | app/api/bolt12.py:276-310 | over every run, a key whose requests take no step keeps its offers exactly, and no offer is ever lost |
| DefaultReceive.FailureChangesNothing | app/api/bolt12.py:1394-1428 | a request that fails has changed nothing: a failed configure leaves the old default in place |
| DefaultReceive.ReturnsDefault | app/api/bolt12.py:1302-1355 | a successful get or configure returns the live default; after a revival exactly if the row is still flagged |
| DefaultReceive.LosesExactly | app/api/bolt12.py:1328-1346 | a mint trips the index exactly if the key has a live default by then |
| DefaultReceive.PromotesExactly | app/api/bolt12.py:1444-1467 | set-default returns the live default if and only if it did not load the row as default or the row still is |
| DefaultReceive.StaleSetDefault | app/api/bolt12.py:1444-1467 | a set-default overtaken by a configure succeeds and leaves no default |
| DefaultReceive.StaleRevival | app/api/bolt12.py:1302-1325 | a get that revives a disabled default, overtaken by a configure, returns an offer that is not the default |
| DefaultReceive.OfferTable.GetOrCreate | app/api/bolt12.py:1279-1355 | alone, it always returns the active live default, reviving or minting it |
| DefaultReceive.OfferTable.Reconfigure | app/api/bolt12.py:1358-1428 | alone, it refuses an empty or overlong description and else makes a new offer with the stripped one the live default |
| DefaultReceive.OfferTable.SetDefaultReceive | app/api/bolt12.py:1431-1482 | alone, 404 for a foreign or missing offer, 400 for one not issued here, else that offer is the active live default |
| DefaultReceive.OfferTable.DisableOffer | app/api/bolt12.py:1930-1952 | alone, the offer is neither active nor default, and a disabled default leaves none |

## Left out

- PaymentHandlers.RateLimiter.CheckSpend: a reservation never ages out of the rolling window, and Redis failure is not modelled, because both are about clocks and outages.
- Idempotency.Store.StoreResult: the unconditional write when Redis scripting is disabled.
- Idempotency.Store.LookupOrReserve: the degraded modes (Redis unreachable, scripting disabled, a corrupt record) and expiry are not modelled.
- PaymentHandlers.PerformPayOffer: the dashboard key, which bypasses the caps by design, and everything between the cap check and the reservation (gateway peering, blinded paths, signature checks) are one parameter: the invoice arrived, or the status with which fetching it failed.
- PaymentHandlers.PayInvoice: run alone; interleavings are proved on the step machine. The same holds for the other handlers.
- Spending.SendWithinBudget: the five per cent budget is exact integer arithmetic; the code's floating-point product agrees with it for every amount of bitcoin that exists.
- Bolt11.PaymentHash: the BOLT 11 checksum and signature are not examined, as in the code.
- Bolt11Amount.ExactAmount: decimal digits outside ASCII, which the prefix pattern also matches.
- ChannelMix.Database.Execute: building the plan and the row contents, and the handler for a violated digest constraint, which migration 051 has removed.
- Concurrency.WaitForDrain: the clock is what each poll reads.
- BodyReplay.LimitBodySize: parsing the Content-Length text into a number, missing or malformed.
- AuditChain.Table.Upgrade: the JSON text of a document is represented by the document.
- DefaultReceive.ReturnsDefault: row locks only exclude interleavings, so they are left out; the sticky-peer refresh and the encoding of offers have no effect on the table.
- KeyRotation.Table.Upgrade: base64 and the version byte are represented by the two forms of a stored value.
- Audit log writes inside the payment handlers: no effect on slot, ledger or row; their failure is the exception step of the machine.
- `app/api/cold_storage.py`: the same reserve and rollback calls with fewer outcomes.
- Lifespan, routers, headers, probes, metrics, settings, read-only routes, the JavaScript swap scripts, LND and gateway clients, the channel-mix planner and executor, and the schema-only migrations: plumbing, foreign libraries or nothing to prove.

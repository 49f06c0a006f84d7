# A verified model of the CCTP receive path

This project models the part of the repository that turns a USDC burn on an EVM chain
into exactly one mint on Stellar: the settle protocol of the demo server
(`apps/demo/server`) with `receive()` and `submitMint()` of the core package
(`packages/core`), the stores and locks it stands on, the deposit state machine of the
client, the fee quotes, the event emitter, the attestation poll and the decimal and
message parsers. `dafny verify dfyconfig.toml` checks all of it.

How the pieces fit together:

- `SettleProtocol` is the settle protocol as an interleaved step machine. A state has a
  clock, core's in-process replay store, the durable replay store, the lock table, the
  recorded intents and two ledgers per hash: the mints that were broadcast and those that
  were confirmed. Any number of settle and status calls stand in it, each at one of its
  awaits. An event is a tick, an initiate, a new call, or one await of one call returning
  with an arbitrary reply. `SettleSafety` proves an inductive invariant and the safety
  results; `SettleTakeover` proves that their one assumption cannot be dropped anywhere,
  `SettleBroadcasts` says exactly when a burn can be broadcast again, `SettleOverrun` has
  concrete runs. `SettleLedgers` traces both ledgers and the durable records to the replies of
  the network, `SettleAnswers` every answer to its causes. `SettleWitness` and `SettleDriving`
  provide requests and attestations that exist and ways to lead a call on.
- `Inputs` says in the callers' own texts and fields which amounts, hashes, attestations and
  requests are accepted, and as what.
- `Handlers` has the same code as methods that change the server's fields step by step:
  `submitMint` with its confirm loop, `receive`, `settleFailure`, `handleSettle`,
  `handleStatus`. Each is proved to be a stretch of the machine, so what holds of all runs
  holds of the methods, and `handleSettle` is also tied to the verdict that the network's
  replies spell out.
- `Locks`, `Intents`, `IntentAgreement`, `IntentRace`, `Replay`, `Buckets`, `Redis` are the
  stores. The two implementations of each store are proved against one reference (a book of
  claims, a history of marks, a history of hits), and it is proved exactly when they answer
  alike.
- `FeeRace` is `handleFees` as an interleaved step machine over the history of its cache,
  `FeeHandler` the handler over `MemoryFeeCache`, each call of which is a run of that machine.
- `Deposit` is the reducer of the client, and `DepositHistory` tells its states from the events
  so far.
- `Burn`, `Fees`, `Emitter`, `Attestation`, `Decimals`, `UsdcAmount`,
  `CctpMessage`, `BurnHash`, `SettlementJson`, `Text` are the remaining components.

Assumptions that are part of the theorems, not of the model:

- The run-level settle results are about one process and one client that does not restart,
  and about *calm* runs (`SettleProtocol.CalmRun`): no call of an account acquires the lock
  of a holder past its deadline that is still *exposed*, that is, itself of an account,
  inside, its hash not marked in core, and not yet past its first mark. Nothing is asked of
  a holder that merely outlives its lock: a run in which every holder meets its deadline is
  calm (`SettleProtocol.TimelyIsCalm`), and so is one with a single call per hash however
  long that sleeps (`SettleProtocol.LoneCallsAreCalm`; `Attestation.SettleWaitOutlastsLock`
  computes such a sleep). Where a run stops being calm it can go on to mint twice, or, if
  the old holder is about to write a submitted record, to overwrite a settled record by that
  one (`SettleTakeover`); the latter unless the deployment's dust collector is no account,
  in which case no record is ever settled. A takeover by a call with a contract address, or
  from one, is calm: core's own check refuses such a call. `LOGIC_PROOF.md` section 3.2
  argues as if check and mark were one atomic step; they are several awaits apart, and the
  proof here goes through the lock and core's own store instead.
- They bound *confirmed* mints. Broadcasts are counted apart, and can be more than one:
  the comment in `settleFailure` says that the submitted record makes the next attempt
  reconcile instead of broadcasting a second mint, and `SettleBroadcasts.BroadcastAgainIff`
  says when that is so.
- Core's replay store and the lock table are the in-memory ones, whose calls do not throw;
  every other await may throw anything at any time, and a write of the durable store, or the
  sending of a transaction, may land and throw all the same. A write that has thrown and lands
  only later is outside the model.
- What the signer, the network and the trustline provider throw is never core's own replay
  or unconfirmed-mint error (`SettleRules.ForeignFailure`).
- The clock does not run backwards, and new intent ids are fresh. The results about one intent
  store hold for any `createdAt`; `IntentRace` takes it that an intent is not younger than its
  put. An intent that is older than its put has a gap, from the end of its own 24 hours to the
  end of its put's: there `MemoryIntentStore` still reads it and `KvIntentStore` does not, and
  only there do the two answer differently (`IntentAgreement.DriveBoth`).
- A cell of Redis is dead from the instant its deadline is reached, as in the memory stores.

Two places where the code does something else than its comments say:

- The comment on `KvIntentStore.put` says that the loser of `SET NX` returns the winner's
  intent. `IntentRace.LoserGetsWinnersIntentIff` says when it does: if and only if the
  winner's own put has returned and its intent is less than 24 h old when the loser reads
  it. `IntentRace.LoserMayKeepItsOwnIntent` reaches the other case from any two rivals.
- The comment on the submitted record, as above: a settle that starts after the record is
  kept out in every run (`SettleBroadcasts.LateSettlesStayOut`), but one that read the
  replay store before it can broadcast again, in a timely run
  (`SettleBroadcasts.TimelyBroadcastsTwice`).

And four where the code keeps a bound less tightly than its name suggests; no comment
promises more:

- The cap on the fast fee is checked when burning starts; a quote that arrives during
  burning replaces quote and mode unchecked. `Deposit.OverCapBurnIffLateQuote` says exactly
  when that leaves an over-cap fast burn and `Deposit.OverCapBurnIsReachable` reaches one.
- In the same way a quote for standard mode that arrives during the fast wait keeps the deposit
  from ever degrading, window or not: `DepositHistory.DegradedIff` has the exact condition and
  `DepositHistory.StandardQuoteHoldsTheWait` the run.
- `resolveMaxFee` rounds up where the client's quote rounds down. Taken as two functions of
  the same texts (the demo client plans no burn, and the script that calls the planner has no
  cap), the planned fee can exceed a cap that the quoted fee keeps, by one base unit:
  `Burn.PlannedFeeAgainstCap` says exactly when, `Burn.CeilingPassesCap` gives an input.
- The hour of a fee quote has two ends, because the entry's age is counted from before the
  probes and its place in the cache from after them: a quote can be exactly an hour old, and
  an entry that the cache still has can be asked for again (`FeeRace.SecondCallIsServedIff`).
  Of two fills at once the slower one's older quote stays (`FeeRace.OlderQuoteReplacesNewer`).

## Model

| member | source | states |
|---|---|---|
| SettleSafety.AtMostOneMint | apps/demo/server/handlers.ts:450-582 | over every calm interleaving of settle and status calls, at most one confirmed mint per hash, however long holders take; that one is covered by a recorded intent (hash, address, mode, amount) and the cap |
| SettleSafety.SettledMeansMinted | packages/core/src/receive.ts:326-365 | a durable settled record has the network hash of the one mint of its hash, and amount + 10 x fee = 10 x gross |
| SettleSafety.DurableMovesForward | apps/demo/server/handlers.ts:589-643 | in calm runs a durable record only goes none, submitted, settled, and a settled one never changes |
| SettleSafety.ReceiptsAreStable | apps/demo/server/handlers.ts:400-410 | once a call has answered with a receipt, each settle or status for that hash that starts later can answer only with the same receipt, a rate limit or a crash of a store read, whatever intents expire |
| SettleSafety.ReceiptsAgree | apps/demo/server/handlers.ts:479-486 | any two receipts ever answered for a hash are equal |
| SettleSafety.NextInv | apps/demo/server/handlers.ts:522-582 | every step of every call, every tick, initiate and new call keeps the invariant, unless by it a call of an account acquires the lock of an exposed holder past its deadline |
| SettleSafety.Exclusive | apps/demo/server/handlers.ts:522-528 | in every calm run at most one call at a time is exposed on a hash |
| SettleSafety.OthersStandBy | apps/demo/server/handlers.ts:522-582 | beside an exposed or a finishing call of a hash every other one can only find the mint marked, or release |
| SettleSafety.HolderKnows | packages/core/src/receive.ts:146-151 | a holder, of an account, that finds its hash absent from core's store knows that it was never minted, late readers of the durable store included |
| SettleProtocol.TimelyIsCalm | apps/demo/server/kv.ts:226-233 | a run in which no holder outlives its lock is calm |
| SettleProtocol.LoneCallsAreCalm | apps/demo/server/kv.ts:226-233 | a run with at most one call per hash is calm, however long the calls take |
| SettleProtocol.CallRunIsRun | apps/demo/server/handlers.ts:450-582 | the steps of one call with nobody else moving are a run of the machine |
| SettleOverrun.OverrunMintsTwice | apps/demo/server/kv.ts:27 | for every settleable request there is a schedule in which a lock expires under its holder and both calls end with a confirmed mint |
| SettleOverrun.OverrunFromStart | apps/demo/server/handlers.ts:522-528 | that schedule runs from the start state, mints twice, and is not calm |
| SettleOverrun.OverrunOfRequest | apps/demo/server/handlers.ts:522-528 | for every account, canonical hash and amount within the cap there are a body, an initiate and an attestation with which it happens |
| SettleOverrun.OverrunExample | apps/demo/server/handlers.ts:522-528 | one dollar, minted twice |
| SettleTakeover.TakeoverMintsTwice | apps/demo/server/kv.ts:226-233 | from every calm reachable state in which a call of an account takes the lock over from an exposed holder (of an account, past its deadline) that is not about to write a submitted record, a continuation with two confirmed mints |
| SettleTakeover.TakeoverUnsettles | apps/demo/server/handlers.ts:624-643 | and if that holder is about to write a submitted record, and a configured dust collector is an account, a continuation in which a settled durable record is overwritten by it |
| SettleTakeover.NeverSettles | packages/core/src/receive.ts:342-352 | with a configured dust collector that is no account, no run whatever settles a durable record |
| SettleBroadcasts.LateSettlesStayOut | apps/demo/server/handlers.ts:477-496 | in every run whatever, once any durable record of a hash exists, a settle that starts later never gets to the intent, the lock or a broadcast |
| SettleBroadcasts.NoEarlyReaderNoBroadcast | apps/demo/server/handlers.ts:477-496 | and without a call that is past its read and before its broadcast nothing more is broadcast for that hash |
| SettleBroadcasts.BroadcastAgainIff | apps/demo/server/handlers.ts:624-643 | in every calm reachable state with a durable record of a hash, a calm continuation with another broadcast exists iff nothing is minted for it and such a call, of an account and within the cap, exists |
| SettleBroadcasts.TimelyBroadcastsTwice | apps/demo/server/handlers.ts:624-643 | for every ordinary request a timely run in which a submitted record is written and the burn is broadcast again |
| SettleLedgers.LedgersAreReplies | packages/core/src/forwarder/index.ts:181-198 | in every run whatever the broadcasts of a hash are, one for one, the hashes of PENDING replies (or of sends that landed unheard) to its sending calls, and its mints the transactions that a poll reported as SUCCESS, with the polling call's data |
| SettleLedgers.RecordsNameBroadcasts | apps/demo/server/handlers.ts:589-643 | in every run a durable record names a broadcast of its hash and the address and domain of a call for it; submitted, it has the gross amount, and settled an amount and zero dust |
| SettleLedgers.LocksAreApart | apps/demo/server/handlers.ts:522-528 | no step of a call for one hash touches the lock of another |
| SettleAnswers.AnswersHaveCauses | apps/demo/server/handlers.ts:450-657 | in every run each answer of a call was come to at one of its own steps, by one of the causes below |
| SettleAnswers.MintFailedHasACause | packages/core/src/forwarder/index.ts:178-207 | for one: MINT_FAILED is answered only after a mint that could not be sent, was turned down, or failed on the network |
| SettleAnswers.WhenMintFailed | packages/core/src/forwarder/index.ts:163-209 | a step leads to 502 MINT_FAILED iff simulating, signing or sending rejects, the send replies another status than PENDING or no hash, a poll says FAILED, or MintFailedError is raised |
| SettleAnswers.WhenNotReady | apps/demo/server/handlers.ts:607-628 | to 409 iff Iris has issued but not attested, a known burn is not settled, or the poll times out |
| SettleAnswers.WhenInvalid | apps/demo/server/handlers.ts:648-655 | to 400 iff the address is a contract's, the attested amount differs, the fee leaves nothing to credit, or such an error is raised |
| SettleAnswers.WhenReceiveFailed | apps/demo/server/handlers.ts:656 | to 502 RECEIVE_FAILED iff the attestation is malformed, the dust collector is no account, or another error is raised before the mint |
| SettleAnswers.WhenUnconfirmed | apps/demo/server/handlers.ts:629-644 | to 502 MINT_UNCONFIRMED iff the submitted record has been written; that step follows the twentieth poll without SUCCESS or FAILED, and nothing else |
| SettleAnswers.WhenReceipt | apps/demo/server/handlers.ts:540-577 | to a receipt iff the settled record has been written, or stands there, with that amount and hash |
| SettleAnswers.WhenForbidden | apps/demo/server/handlers.ts:498-515 | to 403 NO_INTENT iff no intent is found, and to ADDRESS_MISMATCH iff the one found has another address, amount or mode |
| SettleAnswers.WhenRateLimited | apps/demo/server/handlers.ts:474-528 | to 429 iff the bucket is full or the lock of the hash is held and has not expired |
| SettleAnswers.WhenTooLarge | apps/demo/server/handlers.ts:511-520 | to 400 AMOUNT_TOO_LARGE iff the intent fits and the amount exceeds the deployment's cap, and to INVALID_PARAMS iff it is for another domain |
| SettleAnswers.WhenKnown | apps/demo/server/handlers.ts:400-496 | which answers the durable record alone gives, and when a status frame says ready |
| SettleAnswers.WhenFramed | apps/demo/server/handlers.ts:412-415 | a status call comes to its frame iff an intent recorded for its own hash, address and amount is found |
| SettleAnswers.WhenLocked | apps/demo/server/handlers.ts:522-528 | the lock is taken iff nobody has it, under the key of the hash, for a minute |
| SettleAnswers.WhenCrashed | apps/demo/server/handlers.ts:540-605 | an exception leaves the locked part iff a store or the sponsor's sequence cannot be read or written |
| SettleWitness.PlainMessageIsAttested | packages/core/src/receive.ts:194-229 | every amount up to u64 has an attestation that receive() accepts |
| SettleWitness.PlainBodyIsValid | apps/demo/server/handlers.ts:453-472 | every request that validation can produce is produced by a body |
| SettleRules.ValidatedHashIsKey | apps/demo/server/events.ts:241-290 | the hash of a validated request is canonical and is its own key in every store |
| Inputs.AmountIff | apps/demo/server/events.ts:210-218 | a text is an amount iff, trimmed, it is digits with at most six more behind a dot, worth a positive u64 of millionths, which is its value |
| Inputs.RateIff | apps/demo/src/catalog/depositMachine.ts:272-277 | a text is a fee rate in millionths in the same way, of any size |
| Inputs.HashIff | apps/demo/server/events.ts:68-73 | a text is a burn hash iff, trimmed, it is 0x or 0X and 64 hexadecimal digits; its value has them in lower case |
| Inputs.AttestationIff | packages/core/src/receive.ts:194-229 | an attestation is good for a gross amount iff both texts are hexadecimal, with 64 and 130 digits, and the 344 bytes hold that amount, the fee being theirs; another amount is the caller's error and everything else is not |
| Inputs.SettleIff | apps/demo/server/handlers.ts:453-472 | a settle body is accepted iff each of its fields is good, and as which request |
| Inputs.InitiateIff | apps/demo/server/handlers.ts:328-370 | an initiate is accepted iff each of its fields is good, and stores its own address, hash, printed amount, mode and, if there is one, printed cap |
| Inputs.InitiateRefusedIff | apps/demo/server/handlers.ts:328-358 | and is refused iff one of them is not, a cap above the amount included |
| Inputs.PassesIff | apps/demo/server/handlers.ts:498-520 | an intent lets a request pass iff it has its address, amount and mode and the amount is within the deployment's cap, and otherwise which refusal it gets |
| Handlers.SubmitMint | packages/core/src/forwarder/index.ts:157-210 | returns the network hash iff SUCCESS is the first decisive reply among 20, fails iff FAILED comes first, reports the broadcast hash iff neither comes; fails without a poll if the send replies another status than PENDING or no hash, and returns or reports only the hash of a PENDING reply; without a broadcast it polls nothing and names the cause |
| Handlers.WindowTrichotomy | packages/core/src/forwarder/index.ts:188-204 | exactly one of SUCCESS first, FAILED first, undecided |
| Handlers.SubmitMintIsStretch | packages/core/src/forwarder/index.ts:163-204 | submitMint takes the machine from simulating to the outcome of its loop |
| Handlers.SettleServer.Attest | packages/core/src/receive.ts:146-275 | core's check, address, attestation and trustline: the executed fee exactly when all of them pass |
| Handlers.SettleServer.MintOnce | packages/core/src/receive.ts:305-324 | receive's call of submitMint, with the confirmed mint entered in the ledger |
| Handlers.SettleServer.MarkMinted | packages/core/src/receive.ts:326-365 | the submitted mark, the two checks that can still throw, the settled mark: the exact core store afterwards |
| Handlers.SettleServer.Receive | packages/core/src/receive.ts:115-397 | is the machine's stretch from core's check to the settled mark or the error, and earns the record that the replies call for |
| Handlers.SettleServer.SettleFailure | apps/demo/server/handlers.ts:607-657 | writes the durable store only for an unconfirmed broadcast, and then under the broadcast hash; its answer and the record say the same |
| Handlers.SettleServer.PersistSettled | apps/demo/server/handlers.ts:589-605 | writes the settled record of this request, or nothing if the write does not land; a write that lands and throws answers with a crash |
| Handlers.SettleServer.Admit | apps/demo/server/handlers.ts:474-528 | gets the lock exactly when bucket, durable store, intent, domain, cap and lock all allow it |
| Handlers.SettleServer.HandleSettle | apps/demo/server/handlers.ts:450-582 | invalid input changes nothing; any other call is a run of the machine to its answer; the durable store gains exactly the verdict of the script, a receipt or MINT_UNCONFIRMED is answered only on such a record, FAILED answers MINT_FAILED, a mint that the network turns down answers MINT_FAILED and leaves records and broadcasts alone, and the lock is free afterwards |
| Handlers.VerdictTrichotomy | apps/demo/server/handlers.ts:540-577 | after a creditable broadcast the verdict is settled iff SUCCESS comes first, submitted with the broadcast hash iff nothing decisive comes, no record iff FAILED comes first |
| Handlers.SettleServer.HandleStatus | apps/demo/server/handlers.ts:385-440 | writes nothing, answers with a receipt iff the durable record is settled, with the ready flag of the frame iff it is not and the intent is found, 403 iff it is not found, 429 iff the bucket is full, and is a run of the machine |
| Initiate.HandleInitiate | apps/demo/server/handlers.ts:318-377 | over the in-memory store, whose clock is read after the handler's: the book and the answer after the call are those of the reference put |
| Initiate.HandleInitiateKv | apps/demo/server/handlers.ts:318-377 | over the Redis store: those of its reference put |
| Initiate.AnswerMeans | apps/demo/server/handlers.ts:318-377 | a refused call leaves the book alone; an accepted one, put within a day or in memory, answers with an id under which get at once returns an intent for the address, hash and amount that the caller's texts name, and so does find iff the tuple has no binding in force whose intent the store no longer reads |
| Initiate.PutThenGet | apps/demo/server/handlers.ts:371-376 | the intent that put returns is for the caller's own hash, address and amount; get under its id and find on the tuple return it at once, exactly unless it is a newcomer over a day old over Redis or, for find, beside such a binding |
| Initiate.InitiateThenSettle | apps/demo/server/handlers.ts:347-376 | an initiate that claims its tuple, with any cap on the fee, is good for every settle that names the same transfer and the returned id while its intent can be read: it is valid, reads that intent, and passes every check of it but the deployment's cap |
| Initiate.InitiateThenStatus | apps/demo/server/handlers.ts:400-432 | and a status query with the same three texts finds that intent |
| Initiate.StoreAnswersAreFindable | apps/demo/server/handlers.ts:498-509 | what the intent store answers is what the settle machine assumes of its intent reads |
| Locks.MemoryLock.Acquire | apps/demo/server/kv.ts:226-233 | grants a numbered token iff the key is free or expired, and leaves the table alone otherwise |
| Locks.MemoryLock.Release | apps/demo/server/kv.ts:235-238 | removes the entry iff its token matches |
| Locks.TokensNeverReissued | apps/demo/server/kv.ts:226-233 | all tokens issued in a run differ |
| Locks.OneLiveTokenPerKey | apps/demo/server/kv.ts:226-238 | at most one grant of a key is unfreed and unexpired |
| Locks.StaleReleaseIsHarmless | apps/demo/server/kv.ts:235-238 | a release with another holder's token leaves a live holder's entry in place |
| Locks.AcquireIffFree | apps/demo/server/kv.ts:226-233 | in every run a key can be acquired iff no grant of it is live |
| Intents.MemoryIntentStore.Put | apps/demo/server/kv.ts:152-163 | for an intent of any age, does to the book of claims what the reference put does |
| Intents.MemoryIntentStore.Get | apps/demo/server/kv.ts:165-170 | answers as the book does |
| Intents.MemoryIntentStore.Find | apps/demo/server/kv.ts:172-176 | answers as the book does |
| Intents.MemoryIntentStore.Has | apps/demo/server/kv.ts:185-187 | answers as the book does |
| Intents.KvIntentStore.Put | apps/demo/server/kv.ts:340-353 | for an intent of any age, does to the book of claims what the reference put does over Redis, with SET NX and two cells: beside a binding whose intent is no longer read the newcomer is stored unbound |
| Intents.KvIntentStore.Get | apps/demo/server/kv.ts:355-359 | answers as the book does |
| Intents.KvIntentStore.Find | apps/demo/server/kv.ts:361-365 | answers as the book does |
| Intents.KvIntentStore.Has | apps/demo/server/kv.ts:373-376 | answers as the book does |
| Intents.FirstClaimerWins | apps/demo/server/kv.ts:145-163 | for as long as a claim can be read (24 h from its put, and over Redis also from its createdAt), whatever puts come, find and put on the tuple return the first claimer's intent |
| Intents.ExpiredClaimYields | apps/demo/server/kv.ts:140-163 | from 24 h after its put on the tuple is free and the next put claims it |
| Intents.BindKeyIsTuple | apps/demo/server/kv.ts:110-120 | for validated hashes and printed amounts a binding key determines its tuple |
| IntentAgreement.DriveBoth | apps/demo/server/kv.ts:152-187 | the same puts, gets, finds and has put to a new store of each kind: each answers as its reference, and they answer alike from first to last iff no request leads to an intent between the end of its own 24 h and the end of its put's |
| IntentAgreement.AlikeIffGapFree | apps/demo/server/kv.ts:318-359 | the same from any common book of claims |
| IntentAgreement.PromptPutsLeaveNoGap | apps/demo/server/kv.ts:318-328 | intents put at the very time they carry leave no such gap |
| IntentAgreement.LaggingPutLeavesGap | apps/demo/server/kv.ts:318-328 | and every put that lags leaves one, in which a find is answered differently |
| IntentRace.FindsAgree | apps/demo/server/kv.ts:340-365 | over every interleaving of Redis commands, all finds that saw one living binding and found an intent returned the intent whose SET NX won |
| IntentRace.BindingLasts | apps/demo/server/kv.ts:340-353 | a binding stays as it is for as long as it lives |
| IntentRace.PutReturnsOwnOrWinner | apps/demo/server/kv.ts:340-353 | a put returns its own intent or that of a put that won the same tuple |
| IntentRace.LoserGetsWinnersIntentIff | apps/demo/server/kv.ts:333-353 | in every reachable state, a put about to read the winner's intent returns it iff the winner's put has returned and its intent is fresh, and otherwise stores its own |
| IntentRace.FindGetsWinnersIntentIff | apps/demo/server/kv.ts:355-365 | in every reachable state a find follows the binding of the put that won its tuple while that put's intent is fresh, and returns the intent iff that put has returned, the intent is fresh and the hash is the same |
| IntentRace.LateLoserGetsWinnersIntent | apps/demo/server/kv.ts:333-353 | a put that starts after the winner's put has returned, and returns while that intent is fresh, returns it |
| IntentRace.LoserMayKeepItsOwnIntent | apps/demo/server/kv.ts:333-353 | for any two rivals a schedule in which the loser stores and returns its own intent |
| SettlementJson.RecodeIdentityIffClean | packages/core/src/replay/settlement-json.ts:9-29 | decode(encode(x)) = x iff no string field of x has the form digits-then-n, bigints included |
| SettlementJson.BigTextIff | packages/core/src/replay/settlement-json.ts:17-29 | that form is an optional minus, digits and an n |
| SettlementJson.RecodeIdempotent | packages/core/src/replay/settlement-json.ts:9-29 | a second round through the encoding changes nothing |
| SettlementJson.EncodeIsPlain | packages/core/src/replay/settlement-json.ts:12-15 | what is written holds no bigint |
| Replay.MemoryReplayStore.MarkProcessed | apps/demo/server/kv.ts:203-214 | every read answers from the last mark of the normalised hash |
| Replay.RedisReplayStore.MarkProcessed | apps/demo/server/kv.ts:386-411 | the same through the encoding |
| Replay.FileReplayStore.MarkProcessed | packages/core/src/replay/file-store.ts:12-58 | the same through a read, change and rewrite of the whole file |
| Replay.RewrittenKey | packages/core/src/replay/file-store.ts:48-53 | rewriting the file keeps every other record |
| Replay.StoresAnswerAlike | apps/demo/server/kv.ts:196-215 | for each key the encoded stores and the memory store answer alike iff the last record is free of strings of the form digits-then-n |
| Replay.LastMarkMeaning | packages/core/src/replay/index.ts:26-45 | the answer is the last mark whose hash normalises to the key, none iff there is no such mark |
| Replay.SpellingsShareARecord | packages/core/src/replay/index.ts:19-24 | a mark under one accepted spelling of a hash is found under every other |
| BurnHash.NormalisationsAgree | packages/core/src/receive.ts:105-111 | the four normalisations of an accepted hash give one canonical text and leave it alone |
| BurnHash.OneKeyPerHash | apps/demo/server/events.ts:68-73 | two accepted texts get one key iff they spell one hash |
| Buckets.MemoryBuckets.Consume | apps/demo/server/kv.ts:255-264 | admits exactly what the history of hits allows |
| Buckets.RedisBuckets.Consume | apps/demo/server/kv.ts:449-454 | admits exactly what the same history allows, with INCR and EXPIRE |
| Buckets.TwiceTheLimit | apps/demo/server/kv.ts:241-264 | any stretch no longer than the window admits at most twice the limit |
| Buckets.WindowAdmits | apps/demo/server/kv.ts:241-264 | one window admits at most the limit |
| Buckets.DefaultBudgets | apps/demo/server/kv.ts:29-40 | with the default limits no minute admits more than ten settles, forty initiates or 120 status calls on one counter |
| Buckets.SharedCounterIff | apps/demo/server/kv.ts:266-272 | two requests share a counter iff they go to one bucket and are metered by one text, the address with its subject behind a colon |
| Buckets.StoresDecideAlike | apps/demo/server/kv.ts:437-462 | the two stores decide every hit of every history alike iff the window is a whole number of seconds or the limit is zero |
| Buckets.DriveBoth | apps/demo/server/kv.ts:241-272 | the same requests put to two new stores are decided as the reference decides them, and alike for whole-second windows |
| Buckets.PolitePollerIsNeverRefused | apps/demo/src/catalog/depositMachine.ts:319-323 | a lone client paced by nextPollDelay is never refused by the status bucket |
| Deposit.FastBurnHasQuoteWithinCap | apps/demo/src/catalog/depositMachine.ts:182-199 | every event that enters burning in fast mode leaves a fast quote within the cap, fresh on execute |
| Deposit.OverCapBurnIffLateQuote | apps/demo/src/catalog/depositMachine.ts:182-188 | an over-cap fast burn arises exactly from a late over-cap fast quote |
| Deposit.OverCapBurnIsReachable | apps/demo/src/catalog/depositMachine.ts:182-199 | and every over-cap fee can arise so |
| Deposit.HashIsLastBurn | apps/demo/src/catalog/depositMachine.ts:201-210 | the state carries the hash of the latest burn |
| Deposit.PollingHasBurn | apps/demo/src/catalog/depositMachine.ts:201-255 | without the legacy receiving event a polling step has a burn, and its hash |
| Deposit.RetryResumesSameBurn | apps/demo/src/catalog/depositMachine.ts:244-255 | cancel then retry-standard polls for the same burn |
| Deposit.FastWindowNeverReopens | apps/demo/src/catalog/depositMachine.ts:154-158 | out of fast-wait, only a new burn leads back |
| DepositHistory.DegradedIff | apps/demo/src/catalog/depositMachine.ts:149-240 | in every run the deposit is degraded iff the latest burn was fast, no later event left the wait, and since then the window expired or a non-final frame said degraded, 2000 or insufficient_fee while the latest quote, if any, was fast; it waits fast iff the same without such a trigger |
| DepositHistory.StandardQuoteHoldsTheWait | apps/demo/src/catalog/depositMachine.ts:182-188 | after a fast burn a standard quote keeps an expired window from degrading it |
| DepositHistory.ReceiptIsLatest | apps/demo/src/catalog/depositMachine.ts:131-143 | in every run the receipt is the own amount and hash of the latest settled event or of the latest receipt frame taken during polling, and the deposit is settled iff nothing has reopened it since |
| DepositHistory.WhatLeadsWhere | apps/demo/src/catalog/depositMachine.ts:160-258 | for each of the other steps exactly the events that lead into it |
| DepositHistory.WhatIsWritten | apps/demo/src/catalog/depositMachine.ts:160-258 | for each field exactly the events that write it, and what |
| Deposit.AttemptsCountFrames | apps/demo/src/catalog/depositMachine.ts:212-240 | attempts is the number of non-final frames since the last burn or effective retry |
| Deposit.PollDelayRange | apps/demo/src/catalog/depositMachine.ts:319-323 | the jittered delay stays within a fifth of its base |
| Deposit.PollDelayIsLinear | apps/demo/src/catalog/depositMachine.ts:319-323 | and is that base plus its share of a fifth in proportion to the random number, to the nearest millisecond |
| Burn.PlannerMeetsQuote | packages/core/src/evm/burn.ts:96-105 | in tenths of a basis point the planner's ceiling is the quoted floor, plus one iff the division is inexact; it throws iff that exceeds the amount |
| Deposit.QuotedFeeIsFloor | apps/demo/src/catalog/depositMachine.ts:284-294 | for readable texts the quoted fee is the amount at the quoted rate in basis points, rounded down to whole base units |
| Burn.PlannedFeeAgainstCap | packages/core/src/evm/burn.ts:54-105 | for texts whose quoted fee keeps the cap, the planned fee exceeds it iff the quoted fee is the cap and the division is inexact, and then by one base unit |
| Burn.CeilingPassesCap | packages/core/src/evm/burn.ts:96-105 | 1.000001 at 1.3 basis points is quoted 130 and planned 131, against a cap of 130 |
| Burn.CeilingPassesCapInARun | apps/demo/src/catalog/depositMachine.ts:182-199 | and those texts are those of a state that has entered fast burning |
| Attestation.PollAttestationByTx | packages/core/src/attestation/index.ts:172-236 | returns the first row among the first maxRetries replies that is marked complete with a message and an attestation other than PENDING: its own message, its attestation as attestation and signature, its threshold and delay reason; times out iff there is none; attempts, onPoll calls and sleeps are exactly those of the earlier replies |
| Attestation.SleepsNonDecreasing | packages/core/src/attestation/index.ts:226-230 | later sleeps are never shorter |
| Attestation.TotalSleep | packages/core/src/attestation/index.ts:226-230 | the sleeps sum to the capped geometric series |
| Attestation.TotalSleepBound | packages/core/src/attestation/index.ts:226-230 | and to at most n times the cap |
| Attestation.SettleWaitOutlastsLock | apps/demo/server/kv.ts:27-37 | ten attempts can sleep 86 375 ms, longer than the settle lock lives |
| Decimals.FormatThenParse | packages/core/src/decimals/index.ts:52-88 | parsing the printed amount gives it back iff its size is at most 10 x (2^64 - 1), and is refused otherwise |
| Decimals.ReprintKeepsValue | packages/core/src/decimals/index.ts:52-88 | reprinting any accepted text keeps its value |
| Decimals.FormatIsCanonical | packages/core/src/decimals/index.ts:52-63 | every printed amount is canonical |
| Decimals.Convert7to6Inverts | packages/core/src/decimals/index.ts:18-50 | converting back loses nothing, and inverts the credit iff the stroops fit a u64 |
| Decimals.CanonicalIsPrinted | packages/core/src/decimals/index.ts:65-88 | every accepted canonical text is what the printer prints for its value |
| UsdcAmount.ParsersAgree | apps/demo/server/events.ts:210-218 | client and server accept the same texts with the same value |
| UsdcAmount.ParseAmountText | apps/demo/server/events.ts:210-218 | every amount up to u64 has a text that the parser reads as it |
| UsdcAmount.StellarReadsTheSameAmount | packages/core/src/decimals/index.ts:18-28 | the Stellar parser reads the converted amount from the same text iff its whole part has at most 18 digits |
| CctpMessage.HexIsBigEndian | packages/core/src/cctp-message.ts:41-43 | reading the hex text of a slice is reading the slice big-endian |
| CctpMessage.EncodeOfDecode | packages/core/src/cctp-message.ts:12-14 | encoding inverts decoding of a field |
| CctpMessage.HexRoundTrip | packages/core/src/cctp-message.ts:32-33 | hex decoding inverts hex encoding |
| CctpMessage.DecodeOfBuild | packages/core/src/cctp-message.ts:28-45 | a message built around two integers parses to them, with or without the prefix |
| CctpMessage.OnlyTheFieldsMatter | packages/core/src/cctp-message.ts:28-45 | two long enough messages parse alike iff they agree on the 64 bytes at 216 and 312 |
| CctpMessage.CreditConserves | packages/core/src/receive.ts:209-229 | credited stroops + 10 x fee = 10 x caller amount, both read big-endian; credited iff the net is a positive u64 |
| Emitter.EventEmitter.Register | packages/core/src/events/index.ts:61-78 | on and once append one registration |
| Emitter.EventEmitter.Unregister | packages/core/src/events/index.ts:79-88 | off removes every registration of the function |
| Emitter.EventEmitter.DoEmit | packages/core/src/events/index.ts:89-107 | delivers exactly its starting list, in order, runs each handler's body right behind its delivery, whatever the bodies register, remove, emit or throw, and so does every nested emit: the log is the one that the script alone determines; true iff someone listened |
| Emitter.EventEmitter.Perform | packages/core/src/events/index.ts:56-107 | every piece of client code leaves the log that the script alone determines, keeps the emitter faithful and completes every emit it starts |
| Emitter.Play | packages/core/src/events/index.ts:56-107 | so does every run from a new emitter |
| Emitter.HandlersRun | packages/core/src/events/index.ts:89-107 | in the log of an emit each delivery is followed by exactly what its own handler's body does there, and then by the next delivery, or by nothing |
| Emitter.RegisteredInsideIsHeard | packages/core/src/events/index.ts:61-107 | a handler that is registered by another one is reached by the next emit |
| Emitter.LiveMeaning | packages/core/src/events/index.ts:61-98 | a registration is in the list iff no later off of its function and, if once, no later emit of its event |
| Emitter.LiveInOrder | packages/core/src/events/index.ts:61-78 | the list is in registration order, without repetition |
| Emitter.OnceAtMostOnce | packages/core/src/events/index.ts:94-98 | in a faithful run no once registration is delivered twice, and no registration twice by one emit |
| Fees.PickIsExtreme | packages/core/src/attestation/fees.ts:104-131 | fast picks the first of the least thresholds up to 1000, standard the last of the greatest above, none iff no finite row is eligible |
| Fees.PickInNumbers | packages/core/src/attestation/fees.ts:104-131 | in the numbers of the table: a fast tier is found iff a row has a threshold up to 1000, a standard one iff a row has one above, and it is a row with the least or greatest such threshold |
| Fees.RouteKeyInjective | apps/demo/server/handlers.ts:719 | two routes never share a cache entry |
| FeeHandler.FeeServer.HandleFees | apps/demo/server/handlers.ts:694-745 | a refused call changes nothing; any other does what a whole call of the machine does (it probes both tiers and sets the cache exactly when the cache has no entry of the route or one more than an hour old at the handler's clock reading), and its answer is truthful: quote and fastTierAvailable are what probes found that were sent no earlier than the quote's time, at most an hour back; unavailable only if such a probe found nothing |
| FeeRace.AnswersAreTruthful | apps/demo/server/handlers.ts:719-744 | over every interleaving of calls, with the clock running and cache calls that may reject after landing, every answer is truthful in that sense, by the call's own reading of the clock |
| FeeRace.NextInv | apps/demo/server/handlers.ts:719-729 | every event keeps every cache entry, every pending entry and every served one backed by probes of its own route, none of them from the future |
| FeeRace.WholeCall | apps/demo/server/handlers.ts:719-729 | a call whose steps come without others between is a run of the machine, with exactly that effect on cache and probes |
| FeeRace.YoungEntryIsServed | apps/demo/server/handlers.ts:721-722 | in every reachable state a call that reads the cache less than an hour after the time of the route's last set entry is served that entry and probes nothing |
| FeeRace.SecondCallIsServedIff | apps/demo/server/handlers.ts:720-728 | of two calls with any time between, the second is served iff the cache still has the entry (an hour from the set) and the quote is at most an hour old (from before the probes) |
| FeeRace.HourOldQuoteIsServed | apps/demo/server/handlers.ts:722 | whenever the probes took time, a quote exactly one hour old is served |
| FeeRace.LiveEntryIsAskedAgain | apps/demo/server/handlers.ts:722 | and an entry that the cache still has can be asked for again |
| FeeRace.OlderQuoteReplacesNewer | apps/demo/server/handlers.ts:723-728 | two calls that miss at once both probe, the slower one's older entry replaces the newer, and a third call probes again while the newer quote is less than an hour old |
| Fees.SetIsReturned | apps/demo/server/kv.ts:289-297 | what was set is returned for an hour, and not at its end, whatever other keys are set in between |
| FeeHandler.FeeServer.Get | apps/demo/server/kv.ts:289-293 | answers from the history of sets: the last set of the key, while it is less than an hour old |

## Left out

- The SSE route of `serve.ts`, which calls `receive` without the lock, process crashes and restarts, and several clients: the at-most-once results do not cover them.
- `RedisLock`, whose release reads and deletes in two commands: the lock is modelled in its in-memory form.
- The JSON of `RedisFeeCache`; its commands and its lifetime of 3600 s are those of the cache in `FeeRace`.
- `record()` and its legacy bindings: no caller of the modelled handlers uses it.
- Cryptography, XDR and StrKey: signatures, checksums and contract encoding are predicates or replies.
- HTTP, Horizon, Soroban RPC, Iris and Upstash: each call is an arbitrary reply or an abstract map with deadlines.
- JSON text: parsing is assumed to invert printing on value trees; the replacer and the reviver are modelled on trees.
- Floating point: the backoff, the jitter of the poll delay, basis points and fee tiers are computed over the reals.
- `toLowerCase` and `\d`, `\s` beyond ASCII letters, digits and the white space of `trim`.
- Timestamps, elapsed times, the details of a status frame, error texts, headers, origin checks, log output and the listener-leak warning: no result depends on them.
- Optional parameters of `receive` whose absence is a configuration error (signer, provider, sponsor, transport): a failing configuration is a rejected reply of the step at which it is noticed.
- Handlers.SettleServer.HandleSettle: the requires says that the intent store returns only recorded intents, which Initiate.StoreAnswersAreFindable proves of both stores; the buckets' own state is a reply here and modelled in Buckets.
- SettleSafety.AtMostOneMint: bounds confirmed mints in calm runs only, because where a run stops being calm two are possible, as SettleTakeover.TakeoverMintsTwice shows; a mint that lands without submitMint ever hearing of it counts as a broadcast.
- IntentRace.FindsAgree: speaks of finds that found an intent, because a find may look between the claim and the winner's write and find none.

# Verification of the indexer's payment and allocation logic

The indexer serves queries for consumers who pay through state channels. Its **proxy** answers
queries against signed states and keeps one cache record per channel; its **coordinator** stores
the highest signed state of each channel, settles it on chain, and keeps the indexer's
allocations within bounds. This project models both and proves what they promise, with Dafny 4.11:

    dafny verify dfyconfig.toml

## Structure

| file | part |
|---|---|
| `Outcomes.dfy`, `Products.dfy`, `Words.dfy`, `Encoding.dfy` | results and errors, integer products, machine integers, byte and hexadecimal encodings |
| `Base64.dfy`, `SignedStates.dfy` | signed query states as text (Base64 is section 4 of RFC 4648) |
| `StateCaches.dfy` | the record kept for a channel, its bytes and its key |
| `Manifest.dfy` | prices of JSON-RPC calls and batches (section 6 of the JSON-RPC 2.0 specification) |
| `Channel.dfy` | what each request does to a channel's record, as functions |
| `Proxy.dfy` | the request handlers over the Redis store, proved to do what `Channel` says |
| `Requests.dfy` | which requests are answered, refused or charged, and what opens and closes a channel |
| `Credit.dfy`, `Exposure.dfy` | credit, deposit and exposure bounds over whole runs; synchronisation |
| `Coordinator.dfy` | updates, checkpoints and reward collection |
| `Convergence.dfy` | proxy and coordinator joined by unordered, lossy messages |
| `AiStream.dfy` | charging of AI streams |
| `Allocation.dfy` | reducing an over-allocation, with retries |
| `Mutex.dfy` | serialised, retried transactions |
| `MergeJson.dfy` | merging of JSON values |

Code that assigns fields or fills buffers is modelled by classes and methods, each proved equal to
a specification function; the lemmas are about these functions and about runs of them. Every
request, message delivery or synchronisation is one atomic step. What the code obtains from
outside is a parameter: the recovered signer, the answer about a controller account, the indexer's
own signature, the clock, whether the upstream query, a transaction or a removal succeeds, and the
coordinator's reply.

The proxy is built in release mode, so `u64` sums wrap, while the `+` and `*` of `U256` abort the
request; the model follows both.

## What the proofs show about the code

Where a promise does not hold for every input, the exact condition is proved next to a concrete
counterexample.

- The sums of a batch wrap at 64 bits. The stated batch rule decides a batch unless its units wrap
  back into the accepted range (`Manifest.BatchPriceIsExact`); under any limits two calls of 2^63
  units each are accepted for nothing (`Manifest.WrappedBatch`).
- The credit bound holds for every manifest and run exactly when the two limits let a full batch of
  the heaviest method neither vanish nor wrap the conflict counter (`Credit.CreditHoldsUnder`); for
  given prices, exactly when every weight does so (`Credit.CreditHoldsWhen`). Otherwise a run of unpaid
  queries of a fresh channel breaks it (`Credit.ImproperWeightBreaksCredit`), and a batch can weigh
  nothing, so that unpaid queries go on until the deposit is spent (`Credit.WrappedWeightIsFree`). The
  proxy accepts any `u64` as payg overflow. The coordinator keeps it in an integer column of 32 bits and
  its `getAlivePaygs` replaces it by 10000, for which the bound holds.
- The deposit bound needs queries that cost a unit (`Credit.DepositHoldsWhenUnitsArePaid`,
  `Credit.FreeQueries`): an empty batch costs none but is charged one price
  (`Credit.EmptyBatchOverdraws`).
- AI token payments are charged even when the answer is inactive, which escapes the exposure bound. A
  request for tokens is sure to keep it exactly when its block is refused
  (`Exposure.TokenCoverIsExact`): every accepted block takes some channel nothing was spent on beyond
  it (`Exposure.AcceptedBlockEscapes`).
- The coordinator counts a delivered payment as a query. Until a record is synchronised the two spent
  amounts differ by exactly one price a delivered payment, and agree exactly when none has arrived or
  the price is zero (`Convergence.PaymentsAreTheGap`). Only a synchronisation closes the gap, by
  charging the consumer (`Convergence.OnlySyncsCloseTheGap`, `Convergence.PaymentPartsThem`,
  `Convergence.FinalSyncAgrees`).
- A checkpoint requested directly before any signed amount has arrived sends an unsigned tuple
  (`Coordinator.DirectCheckpointIsSignedWhen`); the scheduled collection never does.
- A share of the over-allocation is negative exactly when the floors of all items but the last
  exceed the excess (`Allocation.SharesWithinWhen`, `Allocation.SharesMayBeNegative`).
- A signature re-encodes to the same text exactly when its `v` is 0, 1, 27, 28 or at least 35
  (`SignedStates.NormalisationIsStable`).
- A cache record with one byte after its signer count decodes without signers, whatever the count
  (`StateCaches.DecodingIsTotal`). A comment in `payg.rs` speaks of 256 signers; the code keeps 255.

## Model

| member | source | states |
|---|---|---|
| Base64.DecodeAfterEncode | apps/indexer-proxy/utils/src/payg.rs:406-417 | decoding the text of any bytes gives them back |
| Base64.EncodeAfterDecode | apps/indexer-proxy/utils/src/payg.rs:376-379 | only canonical text is accepted: encoding what was decoded gives the same text |
| Base64.EncodeInjective | apps/indexer-proxy/utils/src/payg.rs:406-417 | different bytes have different texts |
| Base64.AlphabetIsStandard | apps/indexer-proxy/utils/src/payg.rs:406-417 | the alphabet of RFC 4648 in its order, and the padding |
| Base64.EncodeIsStandard | apps/indexer-proxy/utils/src/payg.rs:406-417 | the text of any bytes is that of section 4 of RFC 4648: 24-bit groups, six bits a letter, the last group padded |
| Base64.DecodesWhenEncoded | apps/indexer-proxy/utils/src/payg.rs:376-379 | exactly the texts of byte strings decode |
| Encoding.LittleEndianDigit | apps/indexer-proxy/proxy/src/payg.rs:126-148 | the i-th little-endian byte is the digit of 256 to the i |
| Encoding.BigEndianMirrors | apps/indexer-proxy/utils/src/payg.rs:406-417 | a big-endian word is the little-endian one backwards |
| SignedStates.NormalisationIsStable | apps/indexer-proxy/utils/src/payg.rs:575-586 | the stored `v` keeps the recovery id of every standard `v`, and is a fixed point of normalisation exactly for these |
| SignedStates.NormalisedSignBytes | apps/indexer-proxy/utils/src/payg.rs:575-586 | a normalised signature has the same bytes exactly when its `v` is standard |
| SignedStates.SignDecodes | apps/indexer-proxy/utils/src/payg.rs:575-598 | the 65 bytes of a signature decode to it with `v` normalised |
| SignedStates.SignParts | apps/indexer-proxy/utils/src/payg.rs:575-586 | the two words and, for a standard `v`, 27 plus the recovery id, at their places |
| SignedStates.QueryLayoutParts | apps/indexer-proxy/utils/src/payg.rs:406-417 | the place of every field in the 267 bytes |
| SignedStates.MultipleLayoutParts | apps/indexer-proxy/utils/src/payg.rs:775-784 | the place of every field in the 162 bytes, and the activity byte |
| SignedStates.TextsOfTheRightLength | apps/indexer-proxy/utils/src/payg.rs:376-385 | exactly the texts of 267 and of 162 bytes are accepted; any other is one error |
| SignedStates.QueryRoundTrip | apps/indexer-proxy/utils/src/payg.rs:376-417 | decoding the text of any single-mode state gives the state with both `v` normalised |
| SignedStates.QueryReencodes | apps/indexer-proxy/utils/src/payg.rs:376-417 | a second encoding gives the same text exactly when both `v` are standard |
| SignedStates.QueryTextIsCanonical | apps/indexer-proxy/utils/src/payg.rs:376-417 | an accepted text survives decoding and encoding exactly when its flag is 0 or 1 and both `v` are 27 or 28 |
| SignedStates.MultipleRoundTrip | apps/indexer-proxy/utils/src/payg.rs:751-784 | decoding the text of any multiple-mode state gives the state with `v` normalised |
| SignedStates.MultipleReencodes | apps/indexer-proxy/utils/src/payg.rs:751-784 | a second encoding gives the same text exactly when `v` is standard |
| SignedStates.MultipleTextIsCanonical | apps/indexer-proxy/utils/src/payg.rs:751-784 | an accepted text survives decoding and encoding exactly for a known activity byte and a `v` of 27 or 28 |
| SignedStates.ActiveFromByte | apps/indexer-proxy/utils/src/payg.rs:643-657 | a byte comes back from its activity exactly when it is at most 2 |
| SignedStates.ConvertSignToBytes | apps/indexer-proxy/utils/src/payg.rs:575-586 | the filled 65-byte buffer holds the two words and the normalised `v` |
| SignedStates.EncodeQuery | apps/indexer-proxy/utils/src/payg.rs:406-417 | filling the 267-byte buffer piece by piece writes the layout that round-trips |
| SignedStates.EncodeMultiple | apps/indexer-proxy/utils/src/payg.rs:775-784 | filling the 162-byte buffer piece by piece writes the layout that round-trips |
| StateCaches.ConsumerRoundTrip | apps/indexer-proxy/proxy/src/payg.rs:173-221 | the kind and at most the first 255 signers are read back |
| StateCaches.ConsumerParts | apps/indexer-proxy/proxy/src/payg.rs:196-221 | the places of kind, count and each counted signer |
| StateCaches.CacheRoundTrip | apps/indexer-proxy/proxy/src/payg.rs:80-148 | a stored record is read back equal, up to signers beyond the 255th |
| StateCaches.DecodingIsTotal | apps/indexer-proxy/proxy/src/payg.rs:80-124 | exactly which bytes decode; all others give one error, and only the empty input aborts |
| StateCaches.HeaderParts | apps/indexer-proxy/proxy/src/payg.rs:126-146 | the place of every field in the first 237 bytes |
| StateCaches.CacheReencodes | apps/indexer-proxy/proxy/src/payg.rs:80-148 | decoded bytes encode to themselves exactly when the kind is known and they hold just the announced signers |
| StateCaches.KeyNameParts | apps/indexer-proxy/proxy/src/payg.rs:1108-1112 | a key is the channel's little-endian bytes in hexadecimal and the suffix |
| StateCaches.KeyNameInjective | apps/indexer-proxy/proxy/src/payg.rs:1108-1112 | two channels share a key exactly when they are the same |
| StateCaches.EncodeConsumer | apps/indexer-proxy/proxy/src/payg.rs:196-221 | the loop writes kind, capped count and the counted signers |
| StateCaches.DecodeConsumer | apps/indexer-proxy/proxy/src/payg.rs:173-194 | the loop never reads out of range and yields the announced signers or the error |
| StateCaches.EncodeCache | apps/indexer-proxy/proxy/src/payg.rs:126-148 | pushing field by field writes the layout that round-trips |
| Manifest.WeightsPositive | apps/indexer-proxy/proxy/src/project.rs:166-178 | every method weighs at least one exactly when one of the two limits is positive |
| Manifest.FetchedManifestIsSound | apps/indexer-proxy/proxy/src/project.rs:106-116 | a fetched manifest holds only unit values of at least one, weighted by the limits |
| Manifest.Fetch | apps/indexer-proxy/proxy/src/project.rs:143-188 | the loop fills the unit table; the last item of a name counts; no manifest gives the empty one |
| Manifest.WeightIsShare | apps/indexer-proxy/proxy/src/project.rs:167-178 | a weight without quotients: the payg overflow, one, or the largest share of the most units |
| Manifest.TableHoldsLast | apps/indexer-proxy/proxy/src/project.rs:164-179 | the table holds value and weight of the last item of a name |
| Manifest.TableLacksUnnamed | apps/indexer-proxy/proxy/src/project.rs:164-179 | a name of no item is not in the table |
| Manifest.MethodCostsItsItem | apps/indexer-proxy/proxy/src/project.rs:105-227 | a permitted method costs what the last item of its name says, zero counting as one, and weighs its share |
| Manifest.UnnamedMethodsCostOne | apps/indexer-proxy/proxy/src/project.rs:222-226 | a permitted method no item names, or of no manifest, costs and weighs one |
| Manifest.MatchingIsCovering | apps/indexer-proxy/proxy/src/project.rs:192-217 | a rule ending in an underscore covers the names that begin with it, any other only itself |
| Manifest.ListsDecide | apps/indexer-proxy/proxy/src/project.rs:191-220 | a method is priced exactly when no deny rule covers it and the allow list is empty or covers it; else it is refused |
| Manifest.BatchRefusedWith | apps/indexer-proxy/proxy/src/project.rs:288-300 | a batch is refused for its length, then for a refused call, then for its units |
| Manifest.BatchOfOne | apps/indexer-proxy/proxy/src/project.rs:276-304 | a batch of one call costs what the call costs, if that is within the batch limit |
| Manifest.ScanUnitTimes | apps/indexer-proxy/proxy/src/project.rs:191-227 | the two scans accept a method exactly when no deny rule matches and the allow list is empty or has a match; a trailing underscore means prefix |
| Manifest.ComputeBatch | apps/indexer-proxy/proxy/src/project.rs:276-304 | the loop's result is the sum of the calls, wrapped at 64 bits, or the first applicable error |
| Manifest.ComputeQueryMethod | apps/indexer-proxy/proxy/src/project.rs:259-308 | one unit for other projects, the call's price, the batch's, or a parse error |
| Manifest.BatchPriceIsExact | apps/indexer-proxy/proxy/src/project.rs:276-304 | a batch is decided by the stated rule exactly when its units do not wrap into the accepted range; unwrapped it costs the sum of its calls, at least one unit each |
| Manifest.ModestUnitsNeverWrap | apps/indexer-proxy/proxy/src/project.rs:276-304 | with unit values up to a hundredth of the largest `u64` the stated rule decides every batch |
| Manifest.WrappedBatch | apps/indexer-proxy/proxy/src/project.rs:292-298 | under any limits two calls priced 2^63 units each are accepted together for zero units and twice their weight, wrapped |
| Manifest.EveryCallCosts | apps/indexer-proxy/proxy/src/project.rs:292-298 | a batch has at least as many units as calls |
| Manifest.BatchesAdd | apps/indexer-proxy/proxy/src/project.rs:292-304 | the parts of an accepted batch are accepted, and their units and weights add up |
| Proxy.StoredLookup | apps/indexer-proxy/proxy/src/payg.rs:675-681 | storing a record makes it what its channel finds, and changes no other channel's |
| Proxy.DeletedLookup | apps/indexer-proxy/proxy/src/payg.rs:451-454 | deleting a record removes its channel's and no other |
| Proxy.Server.FetchChannelCache | apps/indexer-proxy/proxy/src/payg.rs:1114-1130 | the stored record of a channel, or the error of an absent or undecodable one |
| Proxy.Server.BeforeQuerySingleState | apps/indexer-proxy/proxy/src/payg.rs:333-437 | the checks, in the code's order, and the conflict mark |
| Proxy.Server.PostQuerySingleState | apps/indexer-proxy/proxy/src/payg.rs:439-500 | books one price and the signed amount, deletes final channels, sends one update |
| Proxy.Server.QuerySingleState | apps/indexer-proxy/proxy/src/payg.rs:502-559 | a refused or failed query changes and sends nothing; a served one does the booking to its own channel only |
| Proxy.Server.BeforeQueryMultipleState | apps/indexer-proxy/proxy/src/payg.rs:562-601 | the signer and balance checks and the charged record, without storing it |
| Proxy.Server.QueryMultipleState | apps/indexer-proxy/proxy/src/payg.rs:684-735 | stores the charge only for a served query with an answer that is not inactive |
| Proxy.Server.ChargeTokens | apps/indexer-proxy/proxy/src/ai.rs:145-166 | stores the charge of at least one unit whatever the answer |
| Proxy.Server.RaiseRemote | apps/indexer-proxy/proxy/src/payg.rs:902-924 | writes or deletes the record only if the signed amount is raised |
| Proxy.Server.Pay | apps/indexer-proxy/proxy/src/payg.rs:841-954 | the whole effect of a payment on store and messages, each early return included |
| Proxy.Server.Handle | apps/indexer-proxy/proxy/src/payg.rs:973-1079 | the whole effect of a published channel: deletion, merge, creation, or nothing |
| Requests.SignerIsChecked | apps/indexer-proxy/proxy/src/payg.rs:354-366 | exactly known signers and controllers of an account pass, a controller joins the stored signers, and others are refused for the stated reason |
| Requests.StrangersAreRefused | apps/indexer-proxy/proxy/src/payg.rs:342-366 | all four kinds of request refuse an unknown signer first, and fail with the record's error without a record |
| Requests.ErrorsChangeNothing | apps/indexer-proxy/proxy/src/payg.rs:502-559 | a request answered with any error changes and sends nothing |
| Requests.FailedQueriesAreFree | apps/indexer-proxy/proxy/src/payg.rs:528-547 | a single or block query whose upstream fails is not charged, final or not |
| Requests.SingleChargedWhen | apps/indexer-proxy/proxy/src/payg.rs:354-441 | exactly when a single query is answered: signer, raise, deposit, counter, no overflow, upstream |
| Requests.SingleRefusedWith | apps/indexer-proxy/proxy/src/payg.rs:378-431 | the error of each refused single query, in the order of the checks |
| Requests.SingleIsBooked | apps/indexer-proxy/proxy/src/payg.rs:399-500 | the whole record, update and answer of an answered single query, final ones included |
| Requests.BlockIsChecked | apps/indexer-proxy/proxy/src/payg.rs:566-601 | signer rule, plain balance check and exact charge shared by block queries and token payments |
| Requests.BlockAnsweredWhen | apps/indexer-proxy/proxy/src/payg.rs:562-731 | exactly when a block query is answered: signer, balance, and the upstream unless inactive |
| Requests.BlockIsCharged | apps/indexer-proxy/proxy/src/payg.rs:589-599 | an answered block query is charged exactly price * units, or nothing if inactive; decision and signature are in the answer |
| Requests.BlockRefusedWith | apps/indexer-proxy/proxy/src/payg.rs:603-666 | a refused block query has the error of the plain check, or the upstream's |
| Requests.TokensChargedWhen | apps/indexer-proxy/proxy/src/ai.rs:151-163 | a token payment succeeds exactly when signer and balance check pass |
| Requests.TokensAreCharged | apps/indexer-proxy/proxy/src/ai.rs:151-163 | and is then charged exactly price * max(tokens, 1), whatever the decision |
| Requests.PaymentIsExact | apps/indexer-proxy/proxy/src/payg.rs:841-954 | exactly when a payment is answered and takes effect, and its whole effect, final ones included |
| Requests.PaymentRefusedWith | apps/indexer-proxy/proxy/src/payg.rs:874-900 | the error of each refused payment |
| Requests.RecordIsExact | apps/indexer-proxy/proxy/src/payg.rs:1001-1072 | a final or expired record closes any channel, one taken in merges or opens, and any other changes nothing |
| Requests.RecordIsMerged | apps/indexer-proxy/proxy/src/payg.rs:1019-1043 | every field after a record is merged into a channel |
| Requests.RecordOpens | apps/indexer-proxy/proxy/src/payg.rs:1044-1060 | every field of a channel opened by a record |
| Requests.OnlyRecordsOpen | apps/indexer-proxy/proxy/src/payg.rs:1001-1060 | a closed channel refuses every request and is opened exactly by a record neither final nor expired whose consumer is known |
| Requests.ChannelClosesWhen | apps/indexer-proxy/proxy/src/payg.rs:451-454 | exactly which query, payment or record closes an open channel |
| Requests.FinalRecordCloses | apps/indexer-proxy/proxy/src/payg.rs:1001-1003 | after a final or expired record every query and payment of any run is refused until a record opens the channel again |
| Credit.CreditBound | apps/indexer-proxy/proxy/src/payg.rs:368-449 | over every run with proper weights the counter stays within its limit and spent within best + price * (1 + counter) |
| Credit.BatchWeighsAtMost | apps/indexer-proxy/proxy/src/project.rs:292-298 | a batch weighs at least one and at most the heaviest weight a call |
| Credit.BatchWeightIsProper | apps/indexer-proxy/proxy/src/project.rs:276-304 | under proper limits a non-empty batch weighs at least one and cannot wrap the counter |
| Credit.ChargedWeightIsProper | apps/indexer-proxy/proxy/src/project.rs:166-178 | the same for every non-empty query a project prices |
| Credit.UnpaidWorkIsBounded | apps/indexer-proxy/proxy/src/payg.rs:368-449 | under proper limits every run priced by a fetched manifest, from one unpaid query and no conflicts, leaves at most price * (1 + payg overflow) unpaid |
| Credit.CreditHoldsUnder | apps/indexer-proxy/proxy/src/project.rs:166-178 | the credit bound holds for every manifest fetched under two limits and every run it prices exactly when these limits are proper |
| Credit.CreditHoldsWhen | apps/indexer-proxy/proxy/src/payg.rs:368-449 | for any set of prices with one of weight one, the bound holds over all runs exactly when every weight counts and cannot wrap the counter |
| Credit.MixedWeightsHoldWhen | apps/indexer-proxy/proxy/src/payg.rs:399-405 | the same for runs mixing the weight one, that of unlisted methods, with any other |
| Credit.ImproperWeightBreaksCredit | apps/indexer-proxy/proxy/src/payg.rs:399-405 | on a channel nothing was spent on, unpaid queries of weight one and a last one of an improper weight break the bound |
| Credit.WrappedWeightIsFree | apps/indexer-proxy/proxy/src/project.rs:292-298 | at a payg overflow of 2^63 a batch weighs nothing, and any number of unpaid queries within the deposit is served |
| Credit.DepositBound | apps/indexer-proxy/proxy/src/payg.rs:373-449 | over every run mixing single, multiple and token queries, payments and published records, spent stays within total |
| Credit.DepositHoldsWhenUnitsArePaid | apps/indexer-proxy/proxy/src/payg.rs:373-449 | single queries of a price keep spent within total exactly when they cost at least one unit |
| Credit.FreeQueries | apps/indexer-proxy/proxy/src/project.rs:259-308 | a query costs no unit exactly when it is a batch that is empty or whose units wrap to zero |
| Credit.EmptyBatchOverdraws | apps/indexer-proxy/proxy/src/project.rs:276-304 | an empty batch is accepted at zero units and overdraws a channel spent to its total |
| Exposure.BalanceIsPlain | apps/indexer-proxy/proxy/src/payg.rs:603-666 | the 256-bit check decides as one in plain integers without the third overflow branch, and the midpoint lies in the block |
| Exposure.UseNeverReactivates | apps/indexer-proxy/proxy/src/payg.rs:648-663 | more spending, more units or a lower signed amount never move an accepted result toward active |
| Exposure.ServedBlockIsCovered | apps/indexer-proxy/proxy/src/payg.rs:603-666 | a served query leaves spent - remote within twice the block's range and twice the largest range |
| Exposure.InactiveLeavesEntry | apps/indexer-proxy/proxy/src/payg.rs:707-709 | refused, failed and inactive queries leave the record untouched |
| Exposure.ExposureBound | apps/indexer-proxy/proxy/src/payg.rs:603-735 | over every run of block queries, payments and records within the bound, spent - remote stays within it |
| Exposure.ActiveTokenIsCovered | apps/indexer-proxy/proxy/src/ai.rs:151-163 | a token payment with an answer that is not inactive keeps the bound |
| Exposure.AcceptedBlockEscapes | apps/indexer-proxy/proxy/src/ai.rs:151-163 | for every accepted block and number of tokens, a channel nothing was spent on that one payment, answered inactive, takes beyond the bound |
| Exposure.TokenCoverIsExact | apps/indexer-proxy/proxy/src/ai.rs:151-163 | a request for tokens keeps the bound on every channel exactly when its block is reversed or too long and so refused |
| Exposure.AmountsOnlyGrow | apps/indexer-proxy/proxy/src/payg.rs:1017-1043 | without deletion spent and remote never decrease and end at or above every record received |
| Exposure.SyncOrderIsIrrelevant | apps/indexer-proxy/proxy/src/payg.rs:1017-1043 | order and repetition of published records do not affect the resulting spent and remote |
| Coordinator.StoredTupleIsWhole | apps/indexer-coordinator/src/payg/payg.service.ts:351-369 | over every run of updates and checkpoints the stored tuple is one submitted state, whole, and the highest |
| Coordinator.FirstHighestIsStored | apps/indexer-coordinator/src/payg/payg.service.ts:351-369 | over every run the stored state is the first submitted of the highest amount |
| Coordinator.UpdatesCountPrices | apps/indexer-coordinator/src/payg/payg.service.ts:351-357 | between checkpoints spent is one price for each update |
| Coordinator.CheckpointOutcome | apps/indexer-coordinator/src/payg/payg.service.ts:489-533 | the sent tuple, the settled record, and that a failed or needless checkpoint changes nothing |
| Coordinator.CheckpointSendsSubmittedState | apps/indexer-coordinator/src/payg/payg.service.ts:489-533 | a checkpoint with money to claim sends the highest submitted state, whole |
| Coordinator.DirectCheckpointIsSignedWhen | apps/indexer-coordinator/src/payg/payg.service.ts:489-512 | a direct checkpoint sends a submitted state exactly when one with a positive amount was submitted |
| Coordinator.CollectionLeavesOthers | apps/indexer-coordinator/src/reward/reward.service.ts:370-396 | a collection neither changes nor sends anything for a channel that is not open |
| Coordinator.CollectionSendsStoredTuples | apps/indexer-coordinator/src/reward/reward.service.ts:370-396 | for each open channel it sends the stored tuple exactly when due, and settles exactly when accepted |
| Coordinator.CollectionSendsSubmittedStates | apps/indexer-coordinator/src/reward/reward.service.ts:362-398 | everything a collection sends was submitted whole and is the highest submitted |
| Coordinator.CollectionRemembers | apps/indexer-coordinator/src/reward/reward.service.ts:370-396 | a channel's start time is noted once, kept over failed and early turns and forgotten when settled |
| Coordinator.RetryIsRaisedWhen | apps/indexer-coordinator/src/reward/reward.service.ts:363-396 | a collection asks for a repetition exactly when the transaction of a ripe channel failed |
| Coordinator.WaitingIsCounted | apps/indexer-coordinator/src/reward/reward.service.ts:370-396 | over any rounds that do not settle it a channel keeps its first noted time, and is due once the limit has passed since |
| Coordinator.PaygService.Update | apps/indexer-coordinator/src/payg/payg.service.ts:332-396 | one price is added; a higher amount replaces the whole tuple; no other channel changes |
| Coordinator.PaygService.Checkpoint | apps/indexer-coordinator/src/payg/payg.service.ts:489-533 | what is sent, when nothing is, and that a failed transaction changes nothing |
| Coordinator.PaygService.CollectChannel | apps/indexer-coordinator/src/reward/reward.service.ts:370-396 | one channel's turn: the threshold, the time limit, the start time and the retry flag |
| Coordinator.PaygService.CollectStateChannelRewards | apps/indexer-coordinator/src/reward/reward.service.ts:362-398 | the loop over the open channels is their turns one after the other |
| Convergence.MoveKeepsInvariant | apps/indexer-proxy/proxy/src/payg.rs:439-500 | each query, payment, delivery, loss and late synchronisation keeps the joint invariant |
| Convergence.SpentAmountsAgree | apps/indexer-coordinator/src/payg/payg.service.ts:351-369 | in every reachable state the proxy's spent is the coordinator's plus one price for each update not arrived; each arrived payment blurs this by at most a price |
| Convergence.PaymentsAreTheGap | apps/indexer-coordinator/src/payg/payg.service.ts:351-357 | over runs without synchronisation the proxy's spent is one price a served query, the gap one price a delivered payment; the two agree exactly when the price is zero or none was delivered |
| Convergence.OnlySyncsCloseTheGap | apps/indexer-proxy/proxy/src/payg.rs:1017-1043 | in every reachable state a delivered payment widens the gap by one price, a synchronisation narrows it by what the record adds, and nothing else moves it |
| Convergence.StaleSyncChangesNothing | apps/indexer-proxy/proxy/src/payg.rs:1017-1043 | without payments, synchronising any record published during the run leaves spent unchanged |
| Convergence.UpdateOrderIsIrrelevant | apps/indexer-coordinator/src/payg/payg.service.ts:351-369 | any order of the same updates leaves the same spent and remote |
| Convergence.NothingIsForged | apps/indexer-proxy/proxy/src/payg.rs:470-495 | what is on the way, lost and delivered is together exactly what was submitted |
| Convergence.DrainedSystemConverges | apps/indexer-coordinator/src/payg/payg.service.ts:351-369 | once all has arrived, remote is the highest submitted and, without payments, both spent amounts agree |
| Convergence.CoordinatorHoldsSubmitted | apps/indexer-coordinator/src/payg/payg.service.ts:351-369 | in every reachable state the coordinator holds the first state or one the proxy submitted, field by field |
| Convergence.FinalSyncAgrees | apps/indexer-proxy/proxy/src/payg.rs:1017-1043 | with payments too, synchronising the final record makes both agree on one price a query and a payment |
| Convergence.PaymentPartsThem | apps/indexer-proxy/proxy/src/payg.rs:926-950 | one delivered payment makes the two differ, and the next record charges a query never served |
| AiStream.DeliveredIsCharged | apps/indexer-proxy/proxy/src/ai.rs:80-115 | at every point of a stream fewer than a batch of delivered messages are uncharged, also when a payment fails |
| AiStream.StreamCostsItsMessages | apps/indexer-proxy/proxy/src/ai.rs:68-115 | if no payment fails a stream costs price * (max(tokens, 1) + messages received), early disconnect included |
| AiStream.PaymentsAreMade | apps/indexer-proxy/proxy/src/ai.rs:80-115 | one payment for the request, one for every ten messages, and one for the rest, which the client is told of last |
| AiStream.UnansweredIsCharged | apps/indexer-proxy/proxy/src/ai.rs:80-93 | the request is paid even if the model does not answer |
| AiStream.TestIsFree | apps/indexer-proxy/proxy/src/ai.rs:57-118 | a test stream is not charged and fails only without a connection |
| AiStream.ClientIsTold | apps/indexer-proxy/proxy/src/ai.rs:145-166 | every inactive answer is handed to the client, and the request's answer first, in every stream |
| AiStream.ReceivedCount | apps/indexer-proxy/proxy/src/ai.rs:95-111 | all messages are received, or those up to the first the client refuses |
| AiStream.PayTokens | apps/indexer-proxy/proxy/src/ai.rs:145-166 | one payment on the store and what the client is told of it, touching no other channel |
| AiStream.ForwardMessages | apps/indexer-proxy/proxy/src/ai.rs:95-111 | the loop over messages, with its counter, early exits, payments and test path |
| AiStream.ConnectRemote | apps/indexer-proxy/proxy/src/ai.rs:57-118 | the whole stream on the store, touching no other channel |
| Allocation.FloorSums | apps/indexer-coordinator/src/reward/reward.service.ts:284-297 | the floor shares miss the exact quotient by less than one an item |
| Allocation.AdjustedSum | apps/indexer-coordinator/src/reward/reward.service.ts:304-316 | spreading the rest reaches the target if the amounts allow it and exhausts them otherwise |
| Allocation.AdjustedWithin | apps/indexer-coordinator/src/reward/reward.service.ts:304-316 | spreading lowers no share and passes no amount |
| Allocation.AdjustedFillsFromTheEnd | apps/indexer-coordinator/src/reward/reward.service.ts:304-316 | an item is raised only once all later ones have reached their amounts |
| Allocation.AssertionIsExact | apps/indexer-coordinator/src/reward/reward.service.ts:282-322 | the adjusted shares sum to the excess exactly when the amounts sum to at least the excess, in any order |
| Allocation.SharesWithinWhen | apps/indexer-coordinator/src/reward/reward.service.ts:284-316 | all shares lie between zero and their amounts exactly when the floors of all items but the last sum to at most the excess |
| Allocation.SharesWithinAmounts | apps/indexer-coordinator/src/reward/reward.service.ts:284-316 | they do whenever the amounts sum to at most what is used |
| Allocation.SharesMayBeNegative | apps/indexer-coordinator/src/reward/reward.service.ts:284-316 | amounts beyond what is used that give a negative share although the assertion holds |
| Allocation.RemainderIsSmall | apps/indexer-coordinator/src/reward/reward.service.ts:284-316 | for amounts summing to what is used the remainder is below the number of deployments and is the total deviation from the floors |
| Allocation.RemovalTouchesPending | apps/indexer-coordinator/src/reward/reward.service.ts:335-351 | exactly the removed entries turn to success, none removed twice, all when nothing fails |
| Allocation.RemovalConserves | apps/indexer-coordinator/src/reward/reward.service.ts:335-351 | the pending total stays the sum of the entries still to do, and falls by what was removed |
| Allocation.RunStopsAtFirstFailure | apps/indexer-coordinator/src/reward/reward.service.ts:335-351 | exactly the unfinished entries before the first refused one are removed, that one is marked, the rest untouched |
| Allocation.PlanIsChosen | apps/indexer-coordinator/src/reward/reward.service.ts:263-303 | no plan without an excess, the kept one if it is what is pending, otherwise a fresh one naming every deployment with its share |
| Allocation.RunKeepsBooks | apps/indexer-coordinator/src/reward/reward.service.ts:263-351 | fresh or kept plan, failed or not: removed and pending make up the excess; without failure the whole excess is removed |
| Allocation.RetriesConserveExcess | apps/indexer-coordinator/src/reward/reward.service.ts:263-351 | over any number of failing runs removed and left make up the original excess and no entry is removed twice |
| Allocation.RetrySafety | apps/indexer-coordinator/src/reward/reward.service.ts:263-351 | from the start, once a plan exists, removed plus pending is the original excess |
| Allocation.OneGoodRunFinishes | apps/indexer-coordinator/src/reward/reward.service.ts:263-351 | the next run without a failure completes the kept plan, shares unchanged |
| Allocation.RewardService.FloorPlan | apps/indexer-coordinator/src/reward/reward.service.ts:282-297 | the first loop yields the floor shares, all pending, and their sum |
| Allocation.RewardService.AdjustItem | apps/indexer-coordinator/src/reward/reward.service.ts:308-315 | one turn of the second loop |
| Allocation.RewardService.Adjust | apps/indexer-coordinator/src/reward/reward.service.ts:304-316 | the second loop, both of its exits included, yields the adjusted shares |
| Allocation.RewardService.TotalOf | apps/indexer-coordinator/src/reward/reward.service.ts:318-321 | the sum of the plan's shares |
| Allocation.RewardService.MakePlan | apps/indexer-coordinator/src/reward/reward.service.ts:282-322 | the plan, or an abort exactly when its shares do not sum to the excess |
| Allocation.RewardService.CarryOut | apps/indexer-coordinator/src/reward/reward.service.ts:335-351 | removals in order up to the first failure, skipping those that succeeded |
| Allocation.RewardService.ReduceAllocation | apps/indexer-coordinator/src/reward/reward.service.ts:252-360 | the whole run: nothing fetched, nothing to do, kept plan, fresh plan, abort without a change |
| Mutex.ExecutionsAreSerial | apps/indexer-coordinator/src/utils/promise.ts:6-21 | for every interleaving the log of a lock is its calls' whole stories one after the other in call order; begun once, at most four attempts, ended once |
| Mutex.AttemptsNeverInterleave | apps/indexer-coordinator/src/core/contract.service.ts:276-301 | along time nothing under a lock goes back to an earlier call |
| Mutex.WaitingCallsGetTheirTurn | apps/indexer-coordinator/src/utils/promise.ts:13-17 | a call behind settled ones, rejected or not, can start |
| Mutex.OutcomesAreKept | apps/indexer-coordinator/src/utils/promise.ts:11-19 | a settled promise keeps its own outcome over every run |
| Mutex.SendTransaction | apps/indexer-coordinator/src/core/contract.service.ts:281-301 | the recursion's outcome and number of attempts |
| Mutex.SendStopsAtFirstSuccess | apps/indexer-coordinator/src/core/contract.service.ts:281-301 | success exactly when one of four attempts would succeed, stopping there; failure only after four |
| Mutex.AttemptsFollowRecursion | apps/indexer-coordinator/src/core/contract.service.ts:276-301 | the attempts of a serialised call end as the recursion does, after as many, whatever happens under any lock in between |
| Mutex.Runtime.CallUnder | apps/indexer-coordinator/src/utils/promise.ts:11-19 | a call extends its lock's chain, starts at once only on a new one, and gets its own promise |
| MergeJson.MergeInto | apps/indexer-proxy/utils/src/tools.rs:71-82 | the visit of the fields, in any order, terminates and leaves the merge in the first argument |
| MergeJson.MergeAtEveryPath | apps/indexer-proxy/utils/src/tools.rs:71-82 | what the merged value holds at every path |
| MergeJson.MergeIsIdempotent | apps/indexer-proxy/utils/src/tools.rs:71-82 | merging the same value again changes nothing |

## Left out

- MergeJson.MergeInto: updates a slot that holds the first argument; the code's reference into a nested object becomes a slot the field's value is moved into and back.
- Convergence.SpentAmountsAgree: covers one price, no final states and no checkpoints; a checkpoint deliberately resets the coordinator's spent amount.
- AiStream.ConnectRemote: the stream runs without other requests to its channel between its payments; the tokenizer's count is a parameter, and states are not ordered among the messages sent to the client.
- Allocation.RewardService.ReduceAllocation: summaries come as a list in any order, so the sort is not modelled; plan entries are values in a list, not shared objects.
- Signature recovery, hashing and signing: the signer and the indexer's signature are parameters, and signatures are sent to the coordinator as they are, not as text.
- Redis failures, time to live and eviction; overlapping unlocked reads and writes of one record by concurrent requests.
- Parsing of JSON, decimal, hexadecimal and base58 text, request ids in errors, and the `from_bs64_old1`/`to_bs64_old2` formats. Amounts the coordinator compares as strings are compared as numbers.
- The engine that schedules promise callbacks: a callback may run at any moment after its promise settled.
- The gas-fee gate of `sendTransaction`, WebSocket charging, the `extend`, `respond` and `terminate` operations, channels rewritten from the network.
- Metrics, peer-to-peer events, logging, error reporting, rate limits, and the administration interface.

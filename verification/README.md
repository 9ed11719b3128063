# Memberships and payments, verified

Kaskama sells posts and monthly memberships for Kaspa coins. This project models
the parts that have to agree with each other for that to be safe, and proves that
they do, or exactly when they do.

- **The membership covenant as a ledger.** `Covenant` is the contract's three
  entries, `Ledger` the chain as a growing set of accepted transactions over
  unspent outputs, `LedgerInvariants`, `LedgerRuns` and `LedgerPrices` what every run of
  it keeps, `LedgerDemands` what it asked of everything it accepted.
  `Gateway` prepares the transactions, `GatewayProofs` shows that they meet the
  contract, the chain and their own books, `GatewayRecords` what their records say and
  when there are any, `Verifier` reads memberships back, `VerifierAnswers` says when it
  answers at all, `EndToEnd` joins the two, and `FirstMembership` runs the whole from an
  empty chain, which shows that what the end-to-end results assume does happen.
- **Bytes and text.** `MembershipContract` is the redeem-script codec,
  `AddressScript` the regrouping of address characters, `JsonText` and
  `CanonicalJson` the texts two transactions are compared by, `HexText` bytes and
  signatures as text, `SignedTransaction` and `PaymentSubmission` the two decisions to
  relay, `PpvPayload` the purchase note, `PriceText` the price parser and printer.
- **Arithmetic.** `Fees` holds the platform fee, written three times in the
  repository, and the network fee; `CoinSelection` the greedy choice of coins;
  `PaymentGateway`, `PaymentProofs` and `PaymentConditions` the post payments.
- **The workflow protocol.** `Tables` says what each store call does, `LibsqlStore`
  and `MemoryStore` are the two stores that do it in place. `Protocol` interleaves
  finalize handlers and any number of reconcilers over them. `ProtocolProofs`,
  `RegistryRuns`, `RegistryRaces`, `PriceRuns` and `PaymentRaces` are safety over all
  interleavings, each with the interleaving where it ends; `StaleRows` is what a stale
  price does to the gateway. `ProtocolSessions` says whom a handler serves,
  `HandlerOutcomes` what one does when nothing interrupts it. `Reconciler` is one pass as
  written, `ReconcilerRefines` shows that the protocol's reconciler comes to the same,
  and `Registry` is the covenant registry.
- **Two caches.** `MembershipAccess` answers from receipts before it scans the
  chain, and `PaidAccess` and `OnRecord` show when its answer means that somebody paid;
  `RateLimiter` and `RateLimiterRuns` bound how often a key is let through.

Conventions of the model:

- An address stands for the 32-byte key it encodes (`AddressScript.KeyAddressDecodes`
  proves the encoding is faithful); `hasAddress` says which keys are valid points.
- Address texts are sequences of characters. The source cuts them by UTF-16 units and
  then walks code points in one copy and units in the other, so what the two copies do
  with characters outside the basic plane is not modelled.
- Script and covenant hashes are injective, so a covenant script is a constructor
  over the state its redeem script encodes (`MembershipContract.RedeemBytesInjective`)
  and a covenant id is its genesis outpoint and outputs.
- The compiled covenant enforces the contract text, and its state span is 119 bytes
  (backend/contracts/consensus-tests/src/lib.rs:68-78); its fixed bytes before and
  after the span are parameters.
- A transaction has at most one covenant input, its first, as the gateway builds it.
  `tx.daa` of the contract is the transaction's lock time. The chain is not
  reorganised, and its DAA score and the clock never decrease. Outputs are spent at
  most once and value is not made from nothing (`LedgerDemands.NothingIsSpentTwice`).
- The id a relay returns is the prepared transaction's: ids do not depend on
  signatures. Equal templates buy the same thing for the same buyer, because a
  template names its post or covenant and spends its buyer's coins.
- What the node answers, SHA-256, `JSON.parse`, and the encoder behind purchase notes
  are parameters. Fee rates are positive reals.
- JSON numbers count as equal when they print alike. A call that throws in the source
  is an `Err`, or a comparison that does not hold; either way nothing is relayed.
- Prepared ids are random and never shared, so one set of tables stands for the
  payment tables and the membership tables; `Reconciler` keeps them apart as two
  stores.

Where the code does not do what one would expect:

- `finalizeOffer` writes the current row before the history insert fails, so an offer
  that reuses an id brings a cancelled covenant back (`Registry.ReusedIdReactivates`).
  The registry stays consistent exactly when no written offer reuses an id
  (`Registry.OfferKeepsConsistent`; over interleavings
  `RegistryRaces.ConsistentExactlyWhenOrderly`), and exactly then no cancelled covenant
  is ever active again (`RegistryRaces.NeverReactivatesExactlyWhenOrderly`). Two handlers
  that read one offer record on either side of its cancellation do reuse it
  (`RegistryRaces.LateHandlerReactivates`). Where one row violates both keys of the
  table, the upsert is taken to apply.
- A price update finalized late overwrites a newer one (`PriceRuns.LateUpdateStands`).
  The row shows the price accepted last, and names the live minter, exactly while the
  record that wrote it was not overtaken (`PriceRuns.RowShowsLastPrice`,
  `PriceRuns.RowNamesLiveMinter`); once it was, the gateway refuses every mint, update
  and cancellation (`StaleRows.OvertakenRowStopsAll`).
- A handler whose second submission is refused deletes the record of a payment that was
  accepted in the meantime (`PaymentRaces.RefusedResubmitLosesPayment`); until a handler
  does, or the record expires, the purchase is not lost
  (`PaymentRaces.UndroppedIsNotLost`). Expiry loses one whose handler stopped before it
  marked the workflow (`PaymentRaces.StoppedHandlerLosesPayment`).
- A reconciler claims a payment as confirmed before it records it. If recording it then
  throws, the workflow is no longer pending, and only the buyer's own handler can still
  record the purchase (`PaymentRaces.FailedFinalizeIsNotRetried`).
- `MemoryStore` loses a workflow's terminal mark on every save and lets a price update
  bring a cancelled covenant back; `MemoryStore.SavesAgree`, `MemoryStore.OffersAgree`
  and `MemoryStore.UpdatesAgree` say exactly when it and the database store agree.
- The reconciler's comment says the prepared record is read without an expiry window
  (backend/src/application/reconcile-workflows.ts:109-111), but the lookup filters on
  expiry: an accepted payment reached later is abandoned
  (`Reconciler.AcceptedIsRecordedUnlessExpired`).
- Price update and cancellation pay the covenant output from the wallet although the
  minter input carries the same value: 50,000,000 more than the fee is left
  (`GatewayProofs.MoveOverpays`).
- Post payments choose the smallest coins first, so dust can block a payment that one
  coin would make (`PaymentProofs.DustBlocks`); they succeed exactly when the smallest
  coin alone or all coins together pay (`PaymentProofs.SmallestOrAll`).
- The payment gateway's copy of the address decoder lets characters outside the
  charset through; `AddressScript.CopiesAgree` says exactly where the copies part.
- A negative integer in a redeem script decodes to -1, which the verifier then cannot
  re-encode (`MembershipContract.DecodeThenEncode`).
- With no covenant on record for a creator, access accepts a membership of any covenant
  that names the creator. Access means payment exactly when some covenant is on record
  (`PaidAccess.AccessIsPaidExactlyWhenOnRecord`, through the registry
  `OnRecord.RecordedAccessIsPaid`). The receipt written back then is never looked at, so
  every later call scans the coins again (`MembershipAccess.DiscoveryIsCachedWhen`).
- An owner scan throws, and with it the access check, at a coin of 50,000,000 from a
  transaction that shows a negative integer, even with a valid membership behind it
  (`VerifierAnswers.ScanStopsAt`, `EndToEnd.WalletFindsMembership`).
- A payment without a payload is approved for every post on the same terms
  (`PaymentProofs.ApprovedForOnePost`).
- A payment below the fee threshold whose creator is the platform, or whose change
  goes to it, is prepared but never approved (`PaymentProofs.PreparedIsApproved`).

## Model

| member | source | states |
|---|---|---|
| LedgerInvariants.InvKept | backend/contracts/membership.sil:26-111 | every step of the chain keeps its invariant: accepted transactions stay lawful, unspent outputs exist, and the genesis of every covenant seen is spent |
| LedgerInvariants.FamilyKept | backend/contracts/membership.sil:26-111 | every step keeps an offer's family: all outputs in the genesis terms, one unspent minter until cancellation, none after |
| LedgerInvariants.SpendsSoleMinter | backend/contracts/membership.sil:35-111 | whatever spends a family output spends its one live minter, by an entry that holds, and the family is not cancelled |
| LedgerRuns.OfferFamilies | backend/src/membership-gateway.ts:119-179 | in every reachable state an offer's family kept creator and platform, minters keep owner = creator and expiry 0, exactly one minter is unspent until cancellation and none afterwards |
| LedgerRuns.NothingFollowsACancel | backend/contracts/membership.sil:96-111 | after a cancellation no acceptable transaction spends the family, so no mint follows |
| LedgerRuns.MembershipIsForever | backend/contracts/membership.sil:35-97 | an unspent membership output is unspent and unchanged in every later state, because every entry requires a minter |
| LedgerRuns.MintPaysItsTerms | backend/contracts/membership.sil:60-72 | an accepted mint paid the family's creator the price less the fee and its platform the fee, by different outputs, together the price |
| LedgerRuns.RevenueIsThePrices | backend/contracts/membership.sil:60-72 | over every run, what mints paid creator and platform equals the sum of the memberships' prices |
| Covenant.MintPaymentsAreDistinct | backend/contracts/membership.sil:52-72 | the member, payment, platform and index outputs a mint requires are different outputs, and the payments add up to the price |
| Covenant.OnlyMintersMove | backend/contracts/membership.sil:35-97 | every entry that holds spends a minter |
| LedgerDemands.OnlyTheirOwnMove | backend/contracts/membership.sil:55-56 | in every reachable chain, whatever moved an offer's covenant spent, beside its minter, a coin of the member it minted for or, as price updates and cancellations, of its creator |
| LedgerDemands.TermsAreTheCreators | backend/contracts/membership.sil:75-111 | in every reachable chain, a transaction after which an offer's live minter is gone or changed spends a coin of the creator |
| LedgerDemands.MintAsksFor | backend/contracts/membership.sil:35-73 | a mint goes through exactly when the minter stays as it is, the second covenant output is the member's, worth 50,000,000 and running for at most 25,920,000 DAA, the member pays for it, and creator, platform and index are paid as the terms within 1 and 1,000,000 KAS say |
| LedgerDemands.UpdateAsksFor | backend/contracts/membership.sil:75-94 | an update goes through exactly when its minter's creator pays for it, the new price is between 1 and 1,000,000 KAS and nothing else of the minter changes |
| LedgerDemands.CancelAsksFor | backend/contracts/membership.sil:96-111 | a cancellation goes through exactly when its minter's creator pays for it and the minter only ceases to be one |
| GatewayProofs.MintMeetsCovenant | backend/src/membership-gateway.ts:181-326 | a prepared mint, fee charged or waived, with or without change, is acceptable at any later time exactly when its price is in the contract's bounds and its coins are unspent |
| GatewayProofs.UpdateMeetsCovenant | backend/src/membership-gateway.ts:328-401 | a prepared price update is acceptable at any later time exactly when the new price is in bounds and its coins are unspent |
| GatewayProofs.CancellationMeetsCovenant | backend/src/membership-gateway.ts:403-466 | a prepared cancellation always meets its entry and is acceptable while its coins are unspent |
| GatewayProofs.OfferStartsFamily | backend/src/membership-gateway.ts:119-179 | a prepared offer starts a covenant family on exactly the offered terms and is acceptable while its coins are unspent |
| GatewayProofs.PreflightPasses | backend/src/membership-gateway.ts:931-1023 | every check of the gateway's own diagnosis passes on every prepared mint |
| GatewayRecords.PreflightIsTheCovenant | backend/src/membership-gateway.ts:931-1023 | on the gateway's layout, with the terms in bounds, the diagnosis passes exactly when the covenant's mint entry holds |
| GatewayRecords.MintAsksBuyer | backend/src/membership-gateway.ts:284-301 | a prepared mint asks for signatures on exactly the inputs that spend the buyer's coins, each once, names covenant and price, and its output 1 is the membership |
| GatewayRecords.UpdateAsksCreator | backend/src/membership-gateway.ts:393-400 | a prepared price update asks for signatures on exactly the inputs that spend the creator's coins, each once, and names the new price |
| GatewayRecords.CancellationAsksCreator | backend/src/membership-gateway.ts:458-465 | a prepared cancellation asks for signatures on exactly the inputs that spend the creator's coins, each once |
| GatewayRecords.OfferAsksCreator | backend/src/membership-gateway.ts:163-169 | a prepared offer asks for signatures on exactly the inputs that spend the creator's coins, each once, and its covenant starts at the first of them |
| GatewayRecords.MintPreparedWhen | backend/src/membership-gateway.ts:181-326 | a mint is prepared exactly when its integers can be written, the node lists the minter, the buyer's unbound coins can pay price, outputs and fee, and the mass fits; without the minter it is refused as a changed state |
| GatewayRecords.UpdatePreparedWhen | backend/src/membership-gateway.ts:328-401 | the same for a price update, whose outputs the creator pays |
| GatewayRecords.CancellationPreparedWhen | backend/src/membership-gateway.ts:403-466 | the same for a cancellation |
| GatewayRecords.OfferPreparedWhen | backend/src/membership-gateway.ts:119-179 | an offer is prepared exactly when its price can be written, the creator can pay and the mass fits |
| GatewayRecords.MintCosts | backend/src/membership-gateway.ts:838-874 | the fee of a mint in closed form: grams by the number of coins, the fee layout, the covenant input's script and the payload, change included |
| GatewayRecords.MoveCosts | backend/src/membership-gateway.ts:838-874 | the fee of a price update or cancellation in closed form |
| GatewayRecords.OfferCosts | backend/src/membership-gateway.ts:838-874 | the fee of an offer in closed form |
| GatewayProofs.OfferLeavesItsFee | backend/src/membership-gateway.ts:138-162 | an offer leaves exactly the estimated fee, which is at least rate and minimum for the transaction as sent |
| GatewayProofs.MintLeavesItsFee | backend/src/membership-gateway.ts:249-292 | a mint leaves exactly the estimated fee, which is at least rate and minimum for the transaction as sent |
| GatewayProofs.MoveOverpays | backend/src/membership-gateway.ts:372-392 | price update and cancellation leave exactly the fee and 50,000,000 more |
| GatewayProofs.ChooseIsMinimal | backend/src/membership-gateway.ts:698-720 | with the real fee estimate, whenever any coins of the wallet would do the gateway finds some, and no more of them |
| CoinSelection.SelectWalletUtxos | backend/src/membership-gateway.ts:698-720 | the loop returns the shortest covering prefix of the eligible coins, largest first, or runs out of funds |
| CoinSelection.SelectionCovers | backend/src/membership-gateway.ts:698-720 | a successful choice is a pick of the wallet's eligible coins that covers the amount and the pick's own fee |
| CoinSelection.SelectionIsMinimal | backend/src/membership-gateway.ts:698-720 | if any pick of eligible coins covers its own fee, the choice succeeds with no more coins than that pick |
| CoinSelection.LargestDominate | backend/src/membership-gateway.ts:704-719 | of all picks of one size the largest coins are worth the most |
| CoinSelection.SortKeepsTies | backend/src/membership-gateway.ts:704-706 | the sort leaves coins of one value in the order the node lists them |
| Fees.FeeFormulasAgree | backend/src/payment-fee.ts:5-9 | basis points, percent and contract formula give the same fee on all amounts: a percent rounded half up, waived below one KAS |
| Fees.EstimatesAgree | backend/src/payment-gateway.ts:183 | both gateways estimate the same fee for a plain transaction |
| Fees.FeeOfMass | backend/src/membership-gateway.ts:838-874 | the fee is the least integer at or above mass times rate and 100 a gram |
| Fees.FewerOutputsWeighLess | backend/src/membership-gateway.ts:838-874 | leaving out trailing outputs never makes a transaction heavier |
| Verifier.ValidIff | backend/src/verifier.ts:107-169 | VALID exactly for output 1 of an accepted version 1 transaction that holds, unspent and unexpired, the very membership its payload shows, under the caller's expectations |
| Verifier.HoldsVerifies | backend/src/verifier.ts:129-169 | a membership that is there is answered VALID before its expiry and EXPIRED from then on, with its covenant |
| Verifier.VerifiesHolds | backend/src/verifier.ts:129-169 | whatever is answered VALID or EXPIRED is such a membership |
| Verifier.ValidMeansPaidMint | backend/src/verifier.ts:138-167 | in every reachable state, VALID in an offer's family means a mint that paid creator and platform for this owner, with expiry at most 25,920,000 DAA after the mint |
| Verifier.FoundIsValid | backend/src/verifier.ts:84-105 | what the owner scan finds verifies on its own, and it finds nothing only if no pointer does |
| VerifierAnswers.ThrowsExactlyWhen | backend/src/verifier.ts:129-154 | verifying throws exactly when the node does not know the transaction, or an accepted one that passes for a mint shows a negative integer |
| VerifierAnswers.MismatchIff | backend/src/verifier.ts:156-160 | OWNER_MISMATCH exactly for a shown membership of another owner than the expected one, whoever its creator and spent or not |
| VerifierAnswers.AnswersNameTheirOutput | backend/src/verifier.ts:129-169 | every answer names the output asked about and its covenant, and has an expiry exactly when it is not NOT_MEMBERSHIP, that of the membership shown |
| VerifierAnswers.PointersAre | backend/src/verifier.ts:89-90 | the scan follows exactly the coins of 50,000,000 |
| VerifierAnswers.ScanStopsAt | backend/src/verifier.ts:89-104 | the scan stops at the first pointer that throws or is VALID, and reports exactly that |
| VerifierAnswers.ScanAnswers | backend/src/verifier.ts:84-105 | if every pointer is known and readable the scan answers, and finds a membership exactly if one is VALID |
| EndToEnd.PaidMembershipVerifies | backend/src/verifier.ts:129-173 | once a prepared mint is accepted, every later state of the chain answers VALID until the expiry the gateway wrote and EXPIRED from then on |
| EndToEnd.OthersAreRefused | backend/src/verifier.ts:150-161 | the same membership is never VALID for another owner, creator or covenant |
| EndToEnd.WalletFindsMembership | backend/src/verifier.ts:84-105 | while the buyer keeps the mint's index output, an owner scan finds a VALID membership; it throws only if a coin of 50,000,000 comes from a transaction that shows a negative integer |
| FirstMembership.MembershipsHappen | backend/src/membership-gateway.ts:119-326 | for every creator, platform, buyer and price in bounds there is a run from the empty chain in which the prepared offer and mint are accepted, the buyer's membership is VALID, its index coin is in the wallet and nobody but creator, platform and buyer was paid |
| MembershipContract.EncodePositiveI64 | backend/src/membership-contract.ts:287-296 | the loop writes a value in range as eight little-endian bytes and refuses every other |
| MembershipContract.DecodePositiveI64 | backend/src/membership-contract.ts:298-304 | the loop reads eight little-endian bytes, or -1 when the top bit is set |
| MembershipContract.I64ReadsBack | backend/src/membership-contract.ts:287-304 | any 64-bit integer reads back as itself, or as -1 when negative |
| MembershipContract.I64WritesBack | backend/src/membership-contract.ts:287-304 | eight bytes read as a number are the encoding of that number |
| MembershipContract.ParsePushes | backend/src/membership-contract.ts:306-320 | the loop reads exactly the pushes of a script, in either length form, or nothing |
| MembershipContract.TightPushesWriteBack | backend/src/membership-contract.ts:306-320 | a script no longer than its values need is their plain pushes, so the fixed span leaves no room for the longer form |
| MembershipContract.EncodeThenDecode | backend/src/membership-contract.ts:97-129 | decoding an encoded in-range state gives it back |
| MembershipContract.DecodeThenEncode | backend/src/membership-contract.ts:97-129 | an accepted script re-encodes to the same bytes exactly when neither integer decoded to -1 |
| MembershipContract.ContractScriptDecodes | backend/src/membership-contract.ts:97-129 | every state the covenant can hold decodes, with negative integers read as -1 |
| MembershipContract.RedeemBytesInjective | backend/src/membership-contract.ts:74-85 | different states have different redeem scripts |
| AddressScript.AddressScript | backend/src/membership-contract.ts:52-72 | the loop computes the script of the regrouped characters and refuses characters outside the charset |
| AddressScript.ScriptFor | backend/src/payment-gateway.ts:181 | the copy computes the same regrouping and lets unknown characters through as -1 |
| AddressScript.RegroupSize | backend/src/membership-contract.ts:57-66 | fewer than eight bits are ever left over and no bit is lost |
| AddressScript.BytesAreLeadingBits | backend/src/membership-contract.ts:57-66 | the buffer stays below two to the bits left, and bytes and buffer together are the base-32 number |
| AddressScript.LeadingBytes | backend/src/membership-contract.ts:57-66 | the bytes are the top bits of the base-32 number, most significant first |
| AddressScript.KeyAddressDecodes | backend/src/membership-contract.ts:52-72 | for every 32-byte key, both copies decode its 5-bit form to 000020, the key and ac |
| AddressScript.DataIsBetween | backend/src/membership-contract.ts:53 | the data is what stands between the last colon, if any, and the last eight characters |
| AddressScript.AcceptedAddresses | backend/src/membership-contract.ts:52-72 | an address is accepted exactly when its data is over the charset, 53 or 54 characters long and starts with eight zero bits |
| AddressScript.CopiesAgree | backend/src/payment-gateway.ts:181 | the two copies have the same outcome exactly when the data is over the charset or could not name a version 0 key anyway |
| JsonText.EscapeReadsBack | backend/src/membership-gateway.ts:889-899 | quoted text, per section 7 of RFC 8259, ends where it ends and reads back, surrogates included |
| JsonText.PrintIsInjective | backend/src/payment-gateway.ts:187 | two well-formed JSON values print alike, in insertion order, exactly when they are the same, key order included |
| JsonText.PlainTextIsKept | backend/src/membership-gateway.ts:889-899 | a text stands unchanged between its quotes exactly when it has no control character, quote, backslash or lone surrogate |
| JsonText.MarksAre | backend/src/membership-gateway.ts:889-899 | arrays and objects are written with the marks of RFC 8259 and no space |
| CanonicalJson.CanonicalPrints | backend/src/membership-gateway.ts:889-899 | the canonical text is the plain text of the value with all keys in order |
| CanonicalJson.CanonicalIsInjective | backend/src/membership-gateway.ts:889-899 | two JSON values have the same canonical text exactly when they are equal up to the order of object keys |
| SignedTransaction.SameTransactionMeans | backend/src/membership-gateway.ts:785-799 | the comparison holds exactly when everything but the id and the requested signature scripts is equal |
| SignedTransaction.InputsAre | backend/src/membership-gateway.ts:785-799 | the inputs compared are the items of the object's one array of that name, if all of them are objects |
| SignedTransaction.RelaysOnlyTheSignedTemplate | backend/src/membership-gateway.ts:468-497 | a text is relayed exactly when it is the stored, unaltered template with, where asked for, hex of bytes that end in 1, and nothing else changed |
| SignedTransaction.UnsignedTemplateIsRefused | backend/src/membership-gateway.ts:484-489 | a template sent back with its requested signatures blank is refused for want of them, and relayed only if it asks for none |
| SignedTransaction.RefusalsInOrder | backend/src/membership-gateway.ts:480-489 | which refusal a text gets: an altered template, then another change, then a missing signature |
| PaymentSubmission.SamePaymentMeans | backend/src/payment-gateway.ts:187 | by the texts printed, the payment comparison holds exactly when the seven named members and the named members of every input are equal |
| PaymentSubmission.MemberIs | backend/src/payment-gateway.ts:187 | a member compared is the value of the object's one field of that name, and nothing else has members |
| PaymentSubmission.RelaysOnlyThePreparedPayment | backend/src/payment-gateway.ts:86-104 | a signed payment is relayed exactly when it is the stored version 0 template in everything compared, every input carries hex of bytes that end in 1, and it spends what it says; and then it has the template's outputs |
| PaymentSubmission.UnsignedPaymentIsRefused | backend/src/payment-gateway.ts:86-104 | a payment sent back with any signature blank is refused for want of it |
| PaymentSubmission.PaymentRefusalsInOrder | backend/src/payment-gateway.ts:86-104 | which refusal a payment gets: its shape, an altered template, another change, a missing signature, a coin that is not as said |
| PriceText.MatchesSpelling | shared/src/index.ts:174-180 | the grammar's match finds the one whole and fraction a text spells |
| PriceText.SompiIsExact | shared/src/index.ts:174-180 | padding the fraction to eight digits loses nothing: the amount is the exact decimal |
| PriceText.MembershipPricesAre | shared/src/index.ts:188-201 | a membership price is parsed exactly when the trimmed text spells a decimal within the contract's bounds, and then to that value |
| PriceText.TrimIs | shared/src/index.ts:174-180 | trimming takes spaces off both ends and all of them |
| PriceText.ParsedPricesAre | shared/src/index.ts:174-212 | a post price is any amount the trimmed text spells; the KAS parser refuses zero |
| PriceText.ProblemsAre | shared/src/index.ts:188-197 | what is wrong with a membership price: blank, no decimal, below 1 KAS or above 1,000,000 KAS, each exactly then |
| PriceText.ParserUndoesPrinter | frontend/src/format.ts:5-8 | parsing a printed amount gives the amount, for every amount from zero up |
| PriceText.MembershipParserUndoesPrinter | shared/src/index.ts:198-201 | the membership parser undoes the printer on exactly the prices a covenant allows |
| PriceText.PrintsShortest | frontend/src/format.ts:5-8 | an amount is printed as the shortest of all texts that spell it |
| HexText.HexReadsBack | backend/src/ppv-payload.ts:22-49 | bytes written as hex read back |
| HexText.HexWritesBack | backend/src/ppv-payload.ts:22-49 | hex text of either case is, in lower case, the hex of the bytes it reads as |
| HexText.SignaturesAre | backend/src/membership-gateway.ts:876-883 | a signature is accepted exactly when it is the hex, in either case, of bytes of which the last is 1 |
| PpvPayload.NoteReadsBack | backend/src/ppv-payload.ts:22-75 | a written purchase note reads back, lower-cased, exactly when the post id is not empty and the digest is 64 hex digits |
| PpvPayload.NotesAre | backend/src/ppv-payload.ts:36-75 | a value is read as a note exactly when it names protocol, version, type and a post and carries 64 hex digits under the self-describing hash or, without one, bare |
| PaymentGateway.ChooseSmallestFirst | backend/src/payment-gateway.ts:57-66 | the loop finds the shortest covering prefix of the buyer's coins, smallest first, or none covers |
| PaymentGateway.Prepare | backend/src/payment-gateway.ts:44-84 | the method builds the template of the chosen coins, and fails on a negative price, a bad rate or missing funds, in that order |
| PaymentProofs.PaymentLeavesItsFee | backend/src/payment-gateway.ts:57-78 | a payment leaves at least its fee and less than the fee and 2,200,000, and no output is negative |
| PaymentProofs.PaymentFeeIsEnough | backend/src/payment-gateway.ts:183 | that fee is at least rate and minimum for the transaction as sent |
| PaymentProofs.PreparedIsApproved | backend/src/payment-gateway.ts:120-135 | an accepted prepared payment is approved for its post exactly when the post has an id and a real digest and, with the fee waived, neither creator nor a buyer with change is the platform |
| PaymentProofs.ApprovedExactlyWhen | backend/src/payment-gateway.ts:120-135 | a purchase is approved exactly when an accepted transaction of the buyer's inputs, naming the post if anything, pays creator and platform or, waived, does not reach the platform; a negative amount throws exactly where all before it is in order |
| PaymentProofs.ApprovedPaysInFull | backend/src/payment-gateway.ts:120-135 | an approved purchase paid creator and platform by different outputs that add up to the amount, all from the buyer's coins |
| PaymentProofs.ApprovedForOnePost | backend/src/payment-gateway.ts:120-135 | a transaction approved for one post is approved on the same terms for exactly that post and digest if it has a payload, and for every post and digest if it has none |
| PaymentProofs.ApprovedForOneBuyer | backend/src/payment-gateway.ts:120-135 | whatever terms a transaction is approved under, the buyer is one, and with a payload the post and digest too |
| PaymentProofs.SmallestOrAll | backend/src/payment-gateway.ts:57-72 | at every rate, coins are found exactly when the smallest coin pays alone or all coins together pay |
| PaymentProofs.CompleteWithoutDust | backend/src/payment-gateway.ts:57-72 | if every coin is worth what spending it costs, coins are found whenever any pick would pay |
| PaymentProofs.DustBlocks | backend/src/payment-gateway.ts:57-72 | with dust it fails: one sompi beside a coin of exactly amount and fee |
| PaymentConditions.PaymentPreparedWhen | backend/src/payment-gateway.ts:44-84 | a payment is prepared exactly when the price is not negative, the rate positive, and the buyer's smallest coin alone or all the buyer's coins cover the price and the fee, which is given in grams |
| LibsqlStore.Store.SavePrepared | backend/src/libsql-store.ts:130-144 | a record is stored under a new id; a taken id is an error that changes nothing |
| LibsqlStore.Store.Prepared | backend/src/libsql-store.ts:145-151 | exactly an id with an unexpired record is answered, with that record |
| LibsqlStore.Store.Prune | backend/src/libsql-store.ts:155-160 | id by id, exactly the expired records go and the others stay as they are |
| LibsqlStore.Store.PutWorkflow | backend/src/libsql-store.ts:161-177 | the upsert keeps the first submission time and the terminal mark |
| LibsqlStore.Store.ClaimTerminal | backend/src/libsql-store.ts:191-204 | the claim succeeds exactly on a row without a terminal mark, which it sets, and changes nothing otherwise |
| LibsqlStore.Store.Pending | backend/src/libsql-store.ts:205-211 | at most limit submitted workflows, smallest id first, as they are |
| LibsqlStore.Store.FinalizePurchase | backend/src/libsql-store.ts:570-577 | the row is inserted unless the table's constraints refuse it, and the prepared record goes either way |
| LibsqlStore.Store.FinalizeRecord | backend/src/application/reconcile-workflows.ts:286-321 | the store call for what was prepared: insert, offer, price update or cancellation, with its outcome |
| LibsqlStore.Store.FinalizeOffer | backend/src/libsql-store.ts:578-621 | current and history rows after an offer, statement by statement, including the upsert kept when the history insert collides; the prepared record goes either way |
| LibsqlStore.Store.FinalizePriceUpdate | backend/src/libsql-store.ts:622-654 | only an active covenant of this creator is repriced, in both tables; the prepared record goes either way |
| LibsqlStore.Store.FinalizeCancellation | backend/src/libsql-store.ts:655-687 | only an active covenant of this creator is cancelled, in both tables; the prepared record goes either way |
| LibsqlStore.Store.DeletePost | backend/src/libsql-store.ts:475-498 | deleting a post takes exactly its purchases away |
| Tables.PendingAre | backend/src/libsql-store.ts:205-211 | what is pending are submitted workflows, distinct, smallest ids first, and all of them if fewer than the limit |
| MemoryStore.Store.PutWorkflow | backend/src/memory-store.ts:58-67 | the in-memory save replaces the row but for its first submission time |
| MemoryStore.Store.ClaimTerminal | backend/src/memory-store.ts:75-87 | the in-memory claim succeeds exactly on a row without a terminal mark |
| MemoryStore.Store.CreatePurchase | backend/src/memory-store.ts:251-258 | the in-memory insert keeps the same two uniqueness constraints as the table |
| MemoryStore.Store.FinalizeOffer | backend/src/memory-store.ts:305-313 | the in-memory offer checks the history only after a cancellation |
| MemoryStore.Store.FinalizePriceUpdate | backend/src/memory-store.ts:314-328 | the in-memory price update does not look at the status |
| MemoryStore.Store.FinalizeCancellation | backend/src/memory-store.ts:329-347 | the in-memory cancellation writes both maps or neither |
| MemoryStore.SavesAgree | backend/src/memory-store.ts:58-67 | both stores save a workflow alike exactly when no terminal mark is there to lose |
| MemoryStore.SaveReopens | backend/src/memory-store.ts:58-87 | a save after a claim makes a second claim succeed in memory and never in the database |
| MemoryStore.OffersAgree | backend/src/memory-store.ts:305-359 | on a consistent registry both finalize an offer alike exactly unless a written offer reuses an id |
| MemoryStore.UpdatesAgree | backend/src/memory-store.ts:314-328 | both finalize a price update alike exactly unless it would bring back a cancelled covenant, which in memory it does |
| MemoryStore.CancellationsAgree | backend/src/memory-store.ts:329-347 | both cancel alike |
| Registry.OneActiveEach | backend/src/adapters/persistence/migrations.ts:225-232 | in a consistent registry a creator has at most one active covenant |
| Registry.OfferKeepsConsistent | backend/src/libsql-store.ts:578-621 | finalizing an offer keeps current and history consistent exactly unless it writes the current row with an id already in the history |
| Registry.UpdateKeepsConsistent | backend/src/libsql-store.ts:622-654 | a price update always keeps them consistent |
| Registry.CancelKeepsConsistent | backend/src/libsql-store.ts:655-687 | a cancellation always keeps them consistent, and marks the covenant cancelled |
| Registry.CanceledStaysCanceled | backend/src/libsql-store.ts:578-687 | over every run without reused ids, current and history agree and a cancelled covenant is never active again |
| Registry.ReusedIdReactivates | backend/src/libsql-store.ts:593-609 | a run in which an offer answered DUPLICATE brings a cancelled covenant back |
| ProtocolProofs.StepKeeps | backend/src/app.ts:667-742 | every step of every handler, reconciler, clock, chain, pruning or deletion keeps the protocol's invariant |
| ProtocolProofs.PurchasesAreReal | backend/src/libsql-store.ts:699-724 | in every interleaving each purchase row carries item and buyer of a prepared record and that record's accepted transaction, no two rows share a transaction or a post and buyer, and confirmed workflows name accepted transactions |
| ProtocolProofs.FinalizedIsOwned | backend/src/app.ts:718-741 | whoever finalized a purchase, even with the answer duplicate, the buyer has it until the post is deleted |
| ProtocolProofs.SettledOnce | backend/src/application/reconcile-workflows.ts:134-193 | all reconcilers' counters together count one lifetime of a workflow row at most once |
| ProtocolProofs.ClaimedOnce | backend/src/libsql-store.ts:191-204 | a row once claimed is not claimable again in its lifetime, whatever is saved over it |
| ProtocolSessions.HandlersServeTheirSession | backend/src/app.ts:667-678 | in every interleaving, whatever a handler does it does for the session that asked for it through the record's own route, and that session is the record's buyer or creator |
| ProtocolSessions.ForeignSessionsDoNothing | backend/src/app.ts:675-678 | in every interleaving, a handler asked for by another session only ends, and changes nothing |
| ProtocolSessions.FetchAnswers | backend/src/app.ts:674-678 | a handler goes on exactly with an unexpired record of its kind that belongs to its session |
| HandlerOutcomes.HandlerEnds | backend/src/app.ts:667-742 | a handler nothing interrupts is turned away and changes nothing, or parks the workflow, drops it with the record, or finalizes, as it always does a confirmed payment; and the tables differ in nothing else |
| HandlerOutcomes.CanPark | backend/src/app.ts:694-710 | unless it is on record as confirmed, a submission may end parked |
| HandlerOutcomes.CanDrop | backend/src/app.ts:711-717 | a submission may be refused, a payment only without a workflow, and ends dropped |
| HandlerOutcomes.CanFinalize | backend/src/app.ts:718-741 | a record whose transaction is accepted may be finalized |
| ReconcilerRefines.AlonePassSettles | backend/src/application/reconcile-workflows.ts:73-193 | a reconciler nothing interrupts, call by call, leaves the tables as one pass over the pending workflows would, for some true answers of the chain, and counts those it settled |
| ReconcilerRefines.EveryPassHappens | backend/src/application/reconcile-workflows.ts:73-193 | whatever the chain truly answers, the calls can make the pass with these answers |
| ReconcilerRefines.SettledByIsThePass | backend/src/application/reconcile-workflows.ts:73-193 | where the answers depend on transaction and record, that is the pass the reconciler runs |
| RegistryRuns.RegistryFollowsChain | backend/src/application/reconcile-workflows.ts:286-321 | in every interleaving each registry row stands at the price of an accepted offer or price update of that covenant by its own creator, and is cancelled only after an accepted cancellation |
| RegistryRaces.StepKeepsConsistent | backend/src/libsql-store.ts:578-687 | a step of any process keeps current and history consistent exactly unless it writes an offer whose id the history has, and then cancelled covenants stay cancelled |
| RegistryRaces.ConsistentExactlyWhenOrderly | backend/src/libsql-store.ts:578-687 | in every interleaving the registry is consistent throughout exactly when no step wrote an offer whose id the history had |
| RegistryRaces.NeverReactivatesExactlyWhenOrderly | backend/src/libsql-store.ts:578-687 | in every interleaving a cancelled covenant is never active again exactly when no step wrote an offer whose id the history had |
| RegistryRaces.LateHandlerReactivates | backend/src/app.ts:801-882 | an interleaving in which a second handler of one offer record brings its cancelled covenant back |
| PriceRuns.RowShowsLastPrice | backend/src/libsql-store.ts:622-654 | in every state of every interleaving a row stands at the price of the record that last wrote it, which is the price accepted last for its covenant exactly when that record was not overtaken by a later one at another price |
| PriceRuns.LastPricesExactlyWhenInTime | backend/src/libsql-store.ts:578-654 | in every interleaving each finalizing that writes a row leaves it at the price accepted last exactly when none of them finalizes an overtaken record |
| PriceRuns.LateUpdateStands | backend/src/app.ts:1087-1150 | an interleaving in which a second handler of one price update puts its price back after a newer update was accepted and finalized |
| PriceRuns.RowNamesLiveMinter | backend/src/membership-gateway.ts:181-190 | over a reachable chain whose offers and updates of the covenant are the server's, the row names the live minter exactly when the record that wrote it was not overtaken |
| LedgerPrices.LiveMinterHasLastPrice | backend/contracts/membership.sil:75-93 | in every reachable chain an offer's live minter is the genesis state at the price set last, by the offer or by an accepted update |
| StaleRows.PreparedUpdateSetsPrice | backend/src/membership-gateway.ts:328-401 | an accepted price update sets exactly the price it was prepared for |
| StaleRows.PreparedOfferSetsPrice | backend/src/membership-gateway.ts:119-179 | an accepted offer starts its covenant at exactly the price it was prepared for |
| StaleRows.OvertakenRowStopsAll | backend/src/membership-gateway.ts:181-190 | once the record that wrote a row is overtaken, mint, price update and cancellation at the row's price are all refused |
| PaymentRaces.RecordLeaves | backend/src/app.ts:694-741 | a step takes a prepared record away only by finalizing it, and then the buyer has the purchase, by expiry, or by a handler told of a refusal |
| PaymentRaces.UndroppedIsNotLost | backend/src/app.ts:667-742 | in every interleaving, until a handler drops it or it expires, a prepared purchase is there to be finalized or the buyer has it |
| PaymentRaces.RefusedResubmitLosesPayment | backend/src/app.ts:679-717 | an interleaving that ends with an accepted payment and neither record, workflow, purchase nor process |
| PaymentRaces.StoppedHandlerLosesPayment | backend/src/app.ts:667-730 | an interleaving in which a handler stops before it marks an accepted payment, and its record expires: nothing is left of it |
| PaymentRaces.FailedFinalizeIsNotRetried | backend/src/application/reconcile-workflows.ts:134-157 | an interleaving in which a reconciler claims an accepted payment and its next call throws: it stays unrecorded, and no reconciler takes it up again |
| Reconciler.WorkflowReconciler.Run | backend/src/application/reconcile-workflows.ts:73-87 | a pass settles the pending payments, then the pending memberships, each as judged at its start, and counts them so |
| Reconciler.WorkflowReconciler.ReconcileAll | backend/src/application/reconcile-workflows.ts:89-101 | the loop settles exactly the ids read, in order |
| Reconciler.WorkflowReconciler.ReconcileOne | backend/src/application/reconcile-workflows.ts:103-193 | one workflow is confirmed, rejected, abandoned, retried or left, with the store and the counters to match |
| Reconciler.JudgedAtStart | backend/src/application/reconcile-workflows.ts:95-131 | what a pass decides about a workflow does not depend on the workflows before it |
| Reconciler.LeftExactlyWhen | backend/src/application/reconcile-workflows.ts:103-193 | a scanned workflow is still there, and unchanged, exactly when it was retried or skipped |
| Reconciler.PassAccounts | backend/src/application/reconcile-workflows.ts:103-193 | scanned is confirmed, rejected, retried and abandoned together exactly when no call failed and no claim was lost |
| Reconciler.OnlyWaitingIsLeft | backend/src/application/reconcile-workflows.ts:103-132 | of the scanned workflows whose calls and claims went through, exactly those with an unexpired record, an undecided chain and an age within the bound are left |
| Reconciler.UndecidedIsLeftUntilStale | backend/src/application/reconcile-workflows.ts:122-125 | with an unexpired record and an undecided chain, a workflow submitted at some time is left exactly while it is no older than the bound |
| Reconciler.ConfirmedIsRecorded | backend/src/application/reconcile-workflows.ts:134-157 | a confirmed purchase is on record when the pass ends, by its own row or one of the same transaction, or of the same post and buyer |
| Reconciler.AcceptedIsRecordedUnlessExpired | backend/src/application/reconcile-workflows.ts:109-119 | an accepted payment is recorded exactly when its prepared record is there and unexpired; otherwise its workflow goes and it buys nothing |
| MembershipAccess.Access.IsActive | backend/src/application/membership-access.ts:14-54 | the loops answer from the receipts, then from the coins under each known covenant, and write back the first discovery |
| MembershipAccess.AnswersActive | backend/src/application/membership-access.ts:22-53 | unless a call throws, the answer is exactly whether some receipt or some coin of the buyer verifies as it should |
| MembershipAccess.AnswersWhenReadable | backend/src/application/membership-access.ts:14-54 | if every receipt and every pointer is known and readable the service answers: yes exactly when the buyer is active, from the receipts exactly when one verifies under its own covenant or, naming none, one on record |
| MembershipAccess.IdsOnRecord | backend/src/application/membership-access.ts:16-23 | the covenants looked under are those of the history and the current one, each once |
| MembershipAccess.DiscoveryIsCachedWhen | backend/src/application/membership-access.ts:41-50 | after a discovery the next call answers from the receipts exactly when it was made under a covenant on record and no receipt had its transaction |
| MembershipAccess.WriteBackIsTransparent | backend/src/application/membership-access.ts:41-50 | writing a discovery back changes no later answer for any buyer and creator on the same chain and coins |
| MembershipAccess.WriteBackKeepsAnswers | backend/src/application/membership-access.ts:14-54 | wherever the service answered before a write-back it answers the same after it, and no call throws that did not |
| MembershipAccess.VerifiedStays | backend/src/verifier.ts:129-169 | what verifies now verifies in every later state of the chain until its expiry |
| MembershipAccess.ReceiptsLast | backend/src/application/membership-access.ts:24-36 | a receipt that gave access gives it until the membership expires, whatever receipts are added |
| PaidAccess.ActiveMeansPaid | backend/src/application/membership-access.ts:14-54 | in every reachable chain, access to a creator with covenants on record, which like those on the receipts are this creator's offers, means an accepted mint paid creator and platform for this buyer |
| PaidAccess.NothingOnRecordChecksNoTerms | backend/src/application/membership-access.ts:37-39 | with none on record, whatever the receipts, a reachable chain gives access although no accepted mint paid for it on this platform's terms |
| PaidAccess.AccessIsPaidExactlyWhenOnRecord | backend/src/application/membership-access.ts:14-54 | if all covenants on record are offers, access means in every reachable chain an accepted paying mint exactly when some covenant is on record |
| OnRecord.OnRecordAreOffers | backend/src/application/membership-access.ts:16-25 | in every interleaving, what the registry and the recorded receipts name are this creator's offers |
| OnRecord.RecordedAccessIsPaid | backend/src/application/membership-access.ts:14-54 | in every interleaving, access through the registry means an accepted paying mint exactly when it has a covenant of this creator |
| RateLimiter.RateLimiter.Check | backend/src/adapters/http/rate-limit.ts:32-50 | one check sweeps, then raises the key's count or opens a window behind the others; a refusal names the whole seconds to the window's end, at least one |
| RateLimiter.RateLimiter.Sweep | backend/src/adapters/http/rate-limit.ts:52-61 | expired windows go, then the oldest until no more than maxKeys are left |
| RateLimiterRuns.RunsAreSound | backend/src/adapters/http/rate-limit.ts:32-61 | in every run windows stand oldest first, one a key, at most maxKeys and one |
| RateLimiterRuns.OldestAreEvicted | backend/src/adapters/http/rate-limit.ts:56-60 | a window dropped for space is no younger than any that stays |
| RateLimiterRuns.LimitPerWindow | backend/src/adapters/http/rate-limit.ts:36-42 | while a key that is not evicted keeps one window it is let through until its count reaches the limit and not after |
| RateLimiterRuns.TwiceTheLimit | backend/src/adapters/http/rate-limit.ts:32-61 | a key that is not evicted is let through at most twice the limit in any span shorter than the window |
| RateLimiterRuns.LimitFromOpening | backend/src/adapters/http/rate-limit.ts:36-42 | from the call that opens its window, that call included, a key that is not evicted passes as often as its count and at most up to the limit |
| RateLimiterRuns.QuietIsNotEvicted | backend/src/adapters/http/rate-limit.ts:52-61 | a key is not evicted while fewer than maxKeys other keys called within the window's length |
| RateLimiterRuns.TwiceTheLimitWhenQuiet | backend/src/adapters/http/rate-limit.ts:32-61 | so, of calls alone: at most twice the limit in any span shorter than the window |
| RateLimiterRuns.WaitingIsEnough | backend/src/adapters/http/rate-limit.ts:42-48 | with a limit of at least one, a refused key that waits as told is let through at its next check, evicted or not |
| RateLimiterRuns.RefusalNamesTheEnd | backend/src/adapters/http/rate-limit.ts:42-48 | a refusal names the fewest whole seconds, at least one, after which the window it counted in has ended |

## Left out

- Network calls, wRPC, retry timing, R2, Telegram and multipart parsing: their answers are parameters.
- Signatures, BLAKE3, SHA-256 and the WASM calls: functions that are injective where that matters.
- The script machine and the compiled contract: the contract text is taken as what the chain enforces.
- Transactions with several covenant inputs, and reorganisations of the chain: outside what the gateway builds and the store expects.
- `membershipPayload` and its parser: the payload carries the redeem script as it is; its JSON wrapping is not modelled.
- Signature-script bytes of the covenant entries: an input names the entry it calls and the arguments; only the script's length enters the fee.
- The platform's mass check (`updateTransactionMass`) and `storageMass`: one parameter says whether it passes.
- Floating-point rounding in fees and the printed form of chain amounts above 2^53: rates are reals, amounts integers.
- Sorting by `Number(BigInt)` differences and `localeCompare`: coins sort by value, ids by their own order.
- Membership handlers' HTTP answers, metrics and logs: only their store calls are steps.
- Progress of the protocol: a process may stop anywhere, so nothing says that a workflow is settled at last.
- `verifyAddress`, sessions, profiles, discovery, previews, publication and deletion of media, feedback, range requests and the frontend but for `formatKas`: plumbing or one-branch logic.
- Reconciler.WorkflowReconciler.Run: one pass with the store to itself; races are the interleavings of Protocol.
- PriceRuns.RowNamesLiveMinter: assumes that every offer and update of the covenant on the chain is one the server prepared; a creator who updates without it leaves the row stale.
- MembershipAccess.AnswersActive: says nothing when a lookup throws before a valid membership is reached, where the source throws too; `AnswersWhenReadable` says when none does.
- HandlerOutcomes.HandlerEnds: one handler with nothing in between; what others may do meanwhile is the matter of the lemmas over interleavings.
- PpvPayload.NoteReadsBack: JSON and UTF-8 are the platform's; lower-casing covers the letters a digest may hold.

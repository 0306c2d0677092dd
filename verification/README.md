# Verification of the byte-stability core of billion-context

billion-context is a proxy that rewrites model requests while keeping their bytes stable enough for the
provider's prefix cache. This project models, in Dafny, the parts of it where a small slip costs a session
its identity or its cache, and proves what they promise.

* **Chain checkpoints** (`Texts`, `Json`, `KeyOrder`, `Printing`, `Jcs`, `JsonStrings`, `Checkpoint`, `TagGrammar`,
  `Carriers`, `WireShapes`, `Insertion`, `Recognition`, `Stamping`, `CarrierScan`, `EmbeddedStrip`, `Cleaning`,
  `Verdicts`): the tag grammar, the canonical JSON printer, recognition, insertion, the self-covering digest, the
  verdicts and the in-place removal of leaked carriers, on the anthropic, openai and responses wires.
* **Wire-neutral projection** (`Neutral`, `NeutralStability`, `NeutralCanonical`, `NeutralWires`, `NeutralTalk`,
  `NeutralFourWires`, `NeutralShapes`, `NeutralIdentity`, `CanonKeys`): conversation turns, their stability under appending, and
  their identity across the four wires.
* **Byte and text scanners** (`ByteCompare`, `ArrayScan`, `SerializedScan`, `WireSpans`, `WireDiff`, `WireVerdicts`,
  `WireNamesakes`, `DumpPairing`): fast forms against slow ones, what they find on serialized JSON, and the verdicts
  drawn from it.
* **Cache ledger** (`Ledger`, `LedgerTotals`, `LedgerFolds`, `LedgerHistory`, `LedgerSeams`, `LedgerState`, `Capture`,
  `CaptureHistory`): the split of every missed token, over every run of folds and settles, and the evidence of
  overlapping requests.
* **Timed and concurrent machines** (`Keepalive`, `KeepaliveState`, `KeepaliveSteps`, `HermesRouting`,
  `HermesHistory`, `Persist`, `PersistMerge`): every interleaving of their atomic steps.
* **Sketches** (`Bits`, `Simhash`, `SketchLaws`): bit arithmetic, digits, distance and memo.

Strings are sequences of UTF-16 code units. JSON values keep their keys in insertion order, and a number is
identified with the text that prints it. A method with loops or a class stands where the program updates state
step by step; its contract ties it to a function. What each such function does is stated a second time, in the
shapes on the wire, the spelled-out names and numbers, or the events of a run, and the laws connect the two.

## What turned out not to hold

* A tag whose time is 9999999999999999 is accepted, but reads as ten to the sixteen and its own rendering is
  refused (`Checkpoint.LastTimeDoesNotReparse`; the exact condition is `Checkpoint.ReparseParsed`).
* Anthropic carriers stacked in one message leave a candidate behind after one extraction, and on the responses
  wire so do carriers in front of a compaction trigger that the first extraction bares (`Verdicts.ExtractTwice` gives
  the exact condition, `Verdicts.StackedBody` and `Verdicts.BuriedBody` bodies that meet it).
* Appending disturbs more than the last turn when a non-object entry interrupts an assistant run
  (`NeutralStability.AppendMovesAtMostTail` is an equivalence, `NeutralStability.RawEntryMovesTail` an input).
* One conversation has another identity on openai than on the other wires when user words, or an answer in a run
  without calls, are the image placeholder; when a call's arguments are null (anthropic, google) or a string that is
  itself JSON text (anthropic); and when a run of several items or calls starts with a call on responses
  (`NeutralIdentity.SameIdentityOnBothWires` is an equivalence; `PlaceholderForks`, `NullArgumentsFork`,
  `JsonTextArgumentsFork` and `ParallelCallsFork` are the inputs).
* The ledger closes on `input - cached` only while no provider reports more cached than input tokens
  (`LedgerTotals.RunCloses` is an equivalence, `LedgerTotals.OvercachedBreaks` an input).
* The restart flag is lost when the first sample of a new boot is unmeasured; the comment at
  `src/cache-ledger.ts:166` promises the first known sample (`LedgerHistory.RestartSwallowed`;
  exactly when it is set is `LedgerHistory.RestartFlag`).
* The prefix measured for a pending fold may pair two bodies in the wrong send order
  (`Capture.FoldPrefixMayRunBackwards`; exactly when is `Capture.AllRunForward`).
* A `json-tail` verdict can hide a rewrite of the messages when another list of the same length stands earlier in
  the text under the same key, or under one that ends in a quote and the key (`WireDiff.NamesakeHidesRewrite`,
  `WireNamesakes.QuotedKeyMisleads`; the exact condition on the scanner is `WireNamesakes.FoundUnlessNamesake`).
* A keepalive reply whose body arrives late can disarm a newer snapshot (`Keepalive.LateBodyDisarms`; exactly
  when is `Keepalive.StaleVerdict`).
* Routing that breaks off at a raising certificate probe leaves the proxy variables set while `env_applied` is
  false (`HermesRouting.InterruptedRouting`; exactly when is `HermesRouting.RestoredUnlessBrokenOff`).
* A snapshot write that could not read the file can lower other processes' chains (`Persist.FailedReadLoses`; exactly
  when is `Persist.FailedReadKeeps`).
* A sketch bit is not the majority vote once the margin leaves the signed byte (`Simhash.BitIsMajority` is an
  equivalence, `Simhash.UnanimousOverflow` an input).
* RFC 8785 sorts keys by UTF-16 code units (section 3.2.3) and prints `0` for negative zero (section 3.2.2.3); the
  code sorts by code point and prints `-0`, and the model follows the code (`KeyOrder.UnitOrderAgrees` says exactly
  which keys the two orders swap, `KeyOrder.UnitOrderDiffers` gives a pair, `Printing.NegativeZeroKept` the number).

## Model

| member | source | states |
|---|---|---|
| KeyOrder.JcsKeyCompare | src/chain-checkpoint.ts:429-442 | the early-exit comparison of two keys is lexicographic order on code points, and zero exactly for equal keys |
| KeyOrder.SortIgnoresOrder | src/chain-checkpoint.ts:450 | sorting an object's members by key gives one result however the members were ordered |
| KeyOrder.UnitOrderAgrees | src/chain-checkpoint.ts:429-442 | code-point order and UTF-16 code-unit order put two keys the same way round exactly unless, where they part, the smaller unit is half of a surrogate pair and the larger is not |
| KeyOrder.UnitOrderDiffers | src/chain-checkpoint.ts:429-442 | two keys the two orders put the other way round |
| Printing.NegativeZeroKept | src/chain-checkpoint.ts:443-455 | a number is written as JSON.stringify writes it, negative zero alone excepted |
| JcsIdentity.PrintsAlikeIffSameValue | src/chain-checkpoint.ts:429-455 | two JSON values print alike exactly when they are the same value; key order at any depth never matters |
| JsonStrings.QuotedReadsBack | src/chain-checkpoint.ts:444-447 | a printed string, read by the rules of RFC 8259 section 7, is the string again, whatever it escapes |
| JsonStrings.ShortEscapes | src/chain-checkpoint.ts:443-447 | which characters are escaped by a letter or a backslash, and that plain ones are not escaped |
| Checkpoint.RenderParseRoundTrip | src/chain-checkpoint.ts:108-136 | every checkpoint a stamp can write is read back as itself |
| Checkpoint.ReparseParsed | src/chain-checkpoint.ts:93-136 | an accepted tag, rendered afresh, is accepted as the same checkpoint exactly when its time is below ten to the sixteen |
| Checkpoint.LastTimeDoesNotReparse | src/chain-checkpoint.ts:93-136 | the excluded time is reachable: an accepted tag whose own rendering is refused |
| TagGrammar.ParsesTheGrammar | src/chain-checkpoint.ts:93-132 | parsing accepts exactly the texts of at most 512 units that hold the five attributes, each once, in any order, with white space between any two, and reads in them exactly what they say |
| TagGrammar.RenderWrites | src/chain-checkpoint.ts:134-136 | a checkpoint is written with its attributes in one fixed order and single blanks |
| CarrierScan.TrailingUserHits | src/chain-checkpoint.ts:151-202 | the backward scan collects, for each entry of the trailing run, the text that may be a carrier |
| CarrierScan.ClassifyHits | src/chain-checkpoint.ts:252-264 | the loop over hits yields the parsed candidates in order, the malformed count, and a drop map naming exactly the carriers |
| CarrierScan.Rebuild | src/chain-checkpoint.ts:268-289 | rebuilding around the drop map leaves every entry before and after the run and each run entry without its carrier |
| CarrierScan.ExtractFromList | src/chain-checkpoint.ts:234-293 | the three loops together compute the declarative extraction used by every law below |
| Stamping.ExtractStamped | src/chain-checkpoint.ts:234-293 | recognition undoes insertion: the stamp is the last candidate, the others are unchanged, and the stripped body does not depend on the tag text |
| Stamping.StampExists | src/chain-checkpoint.ts:472-536 | stamping succeeds exactly on bodies that have a carrier slot on their wire |
| Stamping.StampThenVerify | src/chain-checkpoint.ts:568-636 | a stamped body is valid at every reading time inside the skew and recency windows, whatever other carriers it holds, and otherwise stale but matched |
| Stamping.RestampIsStable | src/chain-checkpoint.ts:472-536 | stamping a stamped body adds no entry and no candidate and leaves the stripped body as stamping once does |
| Stamping.RestampKeepsDigest | src/chain-checkpoint.ts:568-586 | the digest survives any number of restamps by other processors |
| Stamping.MatchNamesBody | src/chain-checkpoint.ts:601-636 | a match on a sent body's digest means the received body without carriers is that sent body, as a JSON value |
| Insertion.InsertKeepsTheRest | src/chain-checkpoint.ts:472-536 | inserting a tag changes nothing but the list of entries; there, on openai and responses, it stands behind all visible entries, replacing only a last entry that says a checkpoint alone, and a trailing compaction trigger stays last; on anthropic it joins the last user message, whose other parts and members stay in order; plain words of a responses body stay as a message in front |
| Insertion.StampInserts | src/chain-checkpoint.ts:568-586 | a stamp is such an insertion of a tag that names the processor, the time and the digest of the stamped body without carriers, under the first eight digits of that digest |
| Recognition.ExtractReadsTheRun | src/chain-checkpoint.ts:151-293 | extraction finds the checkpoints of exactly the trailing user turns, in order, counts their malformed tags, takes whole carriers and trailing tag parts out, and leaves every other entry and key alone |
| Recognition.CutExists | src/chain-checkpoint.ts:151-202 | every list has such a trailing run, with what stands in front and behind |
| Recognition.ExtractReadsWords | src/chain-checkpoint.ts:180-183 | a responses body of plain words is one turn; taking a checkpoint out leaves no words |
| Verdicts.VerdictTable | src/chain-checkpoint.ts:601-636 | what each verdict means over the candidates: which classes are empty, and that the selected checkpoint is the latest of its class |
| Verdicts.VerdictIs | src/chain-checkpoint.ts:601-636 | which verdict a body gets, by whether its candidates of this version hold a match or a mismatch inside the windows, or an older one |
| Verdicts.ExtractTwice | src/chain-checkpoint.ts:151-293 | extracting from what one extraction left finds a candidate exactly when a trailing anthropic message ends in two tags, or on responses a run of carriers at the end has a compaction trigger and a carrier right in front; never on openai |
| Verdicts.StackedBody | src/chain-checkpoint.ts:151-179 | an anthropic message of two tags is such a body |
| Verdicts.BuriedBody | src/chain-checkpoint.ts:180-202 | a carrier, a compaction trigger and a carrier make such a body on the responses wire |
| EmbeddedStrip.StripParts | src/chain-checkpoint.ts:307-409 | the reverse splice over the parts keeps exactly the parts that are no carrier, in order, and counts the others |
| EmbeddedStrip.MessageList.StripEmbedded | src/chain-checkpoint.ts:307-409 | the in-place reverse splice leaves the cleaned list and returns the number of carriers the list held |
| EmbeddedStrip.StripIsIdempotent | src/chain-checkpoint.ts:307-409 | stripping twice is stripping once, and the second pass reports zero |
| EmbeddedStrip.StrippedHasNoCandidate | src/chain-checkpoint.ts:307-409 | a stripped body has no candidate left for recognition, on any of the three wires |
| EmbeddedStrip.StripKeepsTheRest | src/chain-checkpoint.ts:307-409 | every part and message that is no carrier stays, in order |
| Cleaning.StripTakesTheTags | src/chain-checkpoint.ts:307-409 | every tag goes from every user and assistant entry, entries that held nothing else go, all other entries, members and parts stay, and the count is the number of tags |
| Neutral.NeutralTurns | src/affinity-neutral.ts:105-391 | the loop with its pending assistant run and explicit flush computes the projection |
| NeutralStability.StepOnRun | src/affinity-neutral.ts:194-391 | a message either joins the pending run, which only grows, or flushes it first |
| NeutralStability.PendingIsEndsInRun | src/affinity-neutral.ts:194-391 | whether a run is pending at the end is decided by the shape of the messages alone |
| NeutralStability.AppendMovesAtMostTail | src/affinity-neutral.ts:105-391 | appending leaves all turns but the last in place and lets the last only grow, exactly unless a non-object entry follows inside an assistant run |
| NeutralStability.RawEntryMovesTail | src/affinity-neutral.ts:218-222 | a null entry after an assistant message replaces the last turn |
| NeutralCanonical.CanonicalNamesTurn | src/affinity-neutral.ts:395-410 | two turns have one canonical string exactly when they agree on kind and calls, and on text where there are no calls |
| CanonKeys.IndicesAre | src/affinity-neutral.ts:133-145 | the keys a rebuilt object lists first are the decimal numbers below 2^32 - 1 |
| CanonKeys.RankIsOrder | src/affinity-neutral.ts:137-145 | sorted JSON lists those in numeric order, then the other keys in the order of their units |
| CanonKeys.ProtoIsLost | src/affinity-neutral.ts:137-145 | a member __proto__ sets a prototype and is not printed |
| NeutralFourWires.SystemMessagesVanish | src/affinity-neutral.ts:105-115 | any number of leading system and developer messages leave the turns as they are without them |
| NeutralFourWires.NothingElseVanishes | src/affinity-neutral.ts:105-115 | a list that starts with anything else is read from its first entry on |
| NeutralFourWires.ConversationTurns | src/affinity-neutral.ts:152-391 | on each of the four wires a conversation behind any system messages projects to exactly the turns its items contribute: user words and tool results one each, client notices none, every assistant run one turn of its calls in order or else of all its words, lone responses calls a turn each |
| NeutralTalk.DoSpeaks | src/affinity-neutral.ts:194-216 | whatever state the loop is in, the contributions that follow add exactly their turns to it, joined to an open run |
| NeutralShapes.ImagesAlone | src/affinity-neutral.ts:337-370 | a user message of images only is kept as their sorted JSON |
| NeutralShapes.ImagesBesideWords | src/affinity-neutral.ts:337-370 | beside words of the user, images say nothing |
| NeutralShapes.ImagesOfAssistant | src/affinity-neutral.ts:337-364 | beside words of the assistant, the whole content is kept behind a mark |
| NeutralShapes.ReasoningFollows | src/affinity-neutral.ts:320-331 | reasoning follows the answer in the same turn |
| NeutralShapes.UnknownShapeIsKept | src/affinity-neutral.ts:385-389 | a message of no known shape is kept whole under its role |
| NeutralShapes.EntryIsKept | src/affinity-neutral.ts:218-222 | an entry that is no message is kept as it is |
| NeutralShapes.ThinkingIsRead | src/affinity-neutral.ts:164-174 | thinking blocks, redacted ones too, are read like words |
| NeutralShapes.ToolBlocksJoin | src/affinity-neutral.ts:308-316 | a tool message of text blocks says them one after the other |
| NeutralShapes.ShellOutputIsRead | src/affinity-neutral.ts:297-302 | the output of a local shell call is a tool result |
| NeutralShapes.MissingOutputIsQuoted | src/affinity-neutral.ts:297-302 | a null function output reads as a quoted empty string |
| NeutralShapes.NamelessCall | src/affinity-neutral.ts:345-347 | a call with a null name has the empty name |
| NeutralIdentity.SameIdentityOnBothWires | src/affinity-neutral.ts:152-410 | a conversation behind any system messages has on the anthropic, the responses or the google wire the canonical turns it has on openai exactly when no user words are the image placeholder and every assistant run agrees: its arguments print alike, the placeholder is an answer only beside a call, and on responses it opens with words or is one call |
| NeutralIdentity.PlaceholderForks | src/affinity-neutral.ts:345-354 | user words, or a lone answer, equal to the image placeholder fork the identity |
| NeutralIdentity.NullArgumentsFork | src/affinity-neutral.ts:152-161 | null tool arguments fork it: null on openai, an empty object on anthropic and google |
| NeutralIdentity.JsonTextArgumentsFork | src/affinity-neutral.ts:152-161 | a string argument that is itself JSON text forks it on anthropic |
| NeutralIdentity.ParallelCallsFork | src/affinity-neutral.ts:283-296 | two calls at once without a word before them are one turn on openai and two on responses |
| ByteCompare.ByteLcp | src/cache-ledger.ts:924-939 | the binary search over equal prefixes is the naive byte walk |
| ByteCompare.PrefixCompare | src/acp-cache-diff.ts:175-192 | the chunked comparison reports append exactly for prefixes, and the naive common length as offset |
| ByteCompare.IsMidInsertionAppend | src/cache-ledger.ts:947-959 | the binary search over equal suffixes decides whether all of the old body past the prefix is a suffix |
| ByteCompare.IsMidInsertionLinear | src/acp-cache-diff.ts:203-209 | the linear twin decides the same |
| ByteCompare.MidInsertionMeans | src/cache-ledger.ts:941-959 | on the true common prefix the test holds exactly when new bytes were inserted somewhere into the old body, which is no prefix |
| ArrayScan.MessagesArrayCloseOffset | src/cache-ledger.ts:975-1042 | the hop scanner returns, on every byte string, what a byte-at-a-time scanner with an escape flag returns |
| SerializedScan.FindsTheMessages | src/cache-ledger.ts:961-1042 | on the UTF-8 serialization of any object it is the bracket closing the first top-level messages, input or contents array, or nothing |
| WireSpans.ElementSpans | src/acp-cache-diff.ts:241-286 | the scanner over nesting, strings and scalars computes the spans the laws speak of |
| WireSpans.ElementIsWhole | src/acp-cache-diff.ts:250-279 | one printed element is measured as a whole: nested brackets, quoted brackets and escapes included |
| WireSpans.SpansOfArray | src/acp-cache-diff.ts:241-286 | on any compact array, wherever it stands, there is one span per element and it slices that element's own text |
| WireDiff.InfoIsMeant | src/acp-cache-diff.ts:219-239 | the reported spans are those of the message list exactly when no earlier match of its key has as many elements |
| WireNamesakes.FoundUnlessNamesake | src/acp-cache-diff.ts:219-239 | on a serialized body that is so exactly when no list in front of it, at any depth, under the same key or a key ending in a quote and it, has the same number of elements |
| WireNamesakes.QuotedKeyMisleads | src/acp-cache-diff.ts:219-239 | a top-level key that merely ends in a quote and the name misleads the scanner |
| WireDiff.TailMeansSameMessages | src/acp-cache-diff.ts:329-395 | where both lists are seen, a json-tail or tail-fields verdict means every shared message is byte-equal |
| WireVerdicts.VerdictsMean | src/acp-cache-diff.ts:329-395 | on any two bodies strict means exactly that the older is a prefix; mid-insert that it is none and the newer is it with text put in somewhere; a plain rewrite that neither is so |
| WireVerdicts.SeenVerdict | src/acp-cache-diff.ts:329-395 | the whole verdict on serialized bodies whose lists are seen: strict for a prefix; with all shared messages equal and in place a tail by whether the list grew, or a rewrite in front when the texts differ there; else an insertion exactly when there is one |
| WireVerdicts.GapsDecide | src/acp-cache-diff.ts:364-380 | in any layout, a difference between two shared elements makes a tail exactly when the gaps differ in commas and blanks only |
| WireVerdicts.GlueDrops | src/acp-cache-diff.ts:370-374 | what is compared of a gap is everything but commas and white space, in order |
| WireDiff.NamesakeIsReported | src/acp-cache-diff.ts:219-239 | a list of the same length under the same key inside an earlier member is reported instead |
| WireDiff.NamesakeHidesRewrite | src/acp-cache-diff.ts:329-395 | then the verdict is json-tail whatever the old and new messages are |
| DumpPairing.PairDumps | src/acp-cache-diff.ts:569-580 | the two-pointer loop pairs in order within the tolerance, uses no dump twice, accounts for every incoming dump, and makes as many pairs as possible |
| DumpPairing.NoPairingBeatsBest | src/acp-cache-diff.ts:569-580 | no order-keeping pairing within the tolerance makes more pairs |
| Ledger.Decompose | kernel/src/cache-report.ts:92-128 | the three parts add up to what is missed, and a fold is named, one of the pending ones, exactly when something is re-paid |
| LedgerState.CacheLedger.RecordCacheSample | src/cache-ledger.ts:1318-1677 | recording a usage report moves the whole state by the recording function; the line it adds is what LedgerFolds.LineSplits and LedgerHistory.RunCharges say, the folds what LedgerFolds.FoldHistory says, the counters what LedgerTotals.RunSound says |
| LedgerState.CacheLedger.DetectSeam | src/cache-ledger.ts:1044-1216 | the branches of the detector book the last line and the counters by the detecting function, and nothing without a line; what is booked is what LedgerSeams.LineBlamed says |
| LedgerState.CacheLedger.PushFold | src/cache-ledger.ts:1254-1266 | a fold is appended with the next number and no claims |
| LedgerState.CacheLedger.SplitSample | src/cache-ledger.ts:1346-1410 | the loops over the claimable folds and the earliest one give the splitting function, which is what LedgerFolds.LineSplits says |
| LedgerState.CacheLedger.ClaimFolds | src/cache-ledger.ts:1413-1437 | every claimable fold is claimed once, the fourth claim or a warm sample retires it |
| LedgerFolds.FoldHistory | src/cache-ledger.ts:1340-1437 | in every run a fold is retired exactly when four measured reports settled since its cut or one of them re-cached, and has claimed exactly its cold tail |
| LedgerFolds.LineSplits | src/cache-ledger.ts:1340-1411 | in every run the line of a report is split by its history: growth is new content, what lies behind the first start of the folds that still wait is re-paid and charged to that fold, the rest is residual, or new content on the first line |
| LedgerFolds.RunChargesFolds | src/cache-ledger.ts:1520-1523 | over every run each fold's re-paid tokens are those of exactly the lines charged to it |
| LedgerTotals.RunSound | src/cache-ledger.ts:1318-1677 | over every run each counter is the sum over the lines, each line splits its own miss, and folds are claimed at most four times |
| LedgerTotals.RunCloses | src/cache-ledger.ts:1598-1611 | uncached input equals new content plus re-pay plus residual exactly when no report has more cached than input tokens |
| LedgerTotals.OvercachedBreaks | src/cache-ledger.ts:1598-1611 | one report with more cached than input tokens, and it does not close |
| LedgerTotals.RunPartitions | src/cache-ledger.ts:2225-2235 | the eight cause buckets add up to the attributed residual, the rest is never clipped, and the six seam arms stay within it |
| LedgerTotals.RunArmsDisjoint | src/cache-ledger.ts:1044-1216 | no line is booked in two seam arms, and none is both booked and charged to a cause |
| LedgerTotals.RunFoldsOwn | src/cache-ledger.ts:1411-1523 | every re-paid token is owned by exactly one fold |
| LedgerHistory.RunCharges | src/cache-ledger.ts:1457-1564 | each line carries exactly the flips its history shows and is charged exactly to the cause that history calls for |
| LedgerHistory.ChargeIsJustified | src/cache-ledger.ts:1525-1564 | a charge means a flip on this line, or one at most four samples earlier with no warm measured sample since; restart only on its own line |
| LedgerHistory.WarmFrom | src/cache-ledger.ts:1530 | a report is warm from 84.95 percent on, which rounds to 85.0 |
| LedgerHistory.PromptNeedsClient | src/cache-ledger.ts:1460-1564 | a line charged to the prompt has a line, itself or one at most four samples earlier with no warm sample after it, on which the text moved and not by the proxy's own projection alone |
| LedgerHistory.RestartFlag | src/cache-ledger.ts:1471-1473 | the restart flag compares with the boot of the sample right before |
| LedgerHistory.RestartSwallowed | src/cache-ledger.ts:1471-1473 | so an unmeasured first sample of a new boot swallows the flag, against the promise at line 166 |
| LedgerSeams.BlameNeedsBreak | src/cache-ledger.ts:1085-1156 | on fully recorded bodies a miss is blamed on a broken history only when the list is no shorter and not merely appended to |
| LedgerSeams.LineBlamed | src/cache-ledger.ts:1044-1216 | in every run a line is booked exactly when its residual is unaccounted for and its bodies did not settle late; its arm follows from the bodies sent, then from the client's own two lists, then from the sweeps, with the idle time since the report before |
| LedgerSeams.SeamLcp | src/cache-ledger.ts:886-915 | the two walks measure the common bytes of the recorded heads and the common messages they read as |
| LedgerState.FirstDivergentInboundMsg | src/cache-ledger.ts:601-607 | the walk finds the first place where both lists have a message and the two differ |
| Capture.CaptureStore.NoteForwardedBody | src/cache-ledger.ts:735-769 | noting a body writes the running capture's slot, or the shared one, by the noting function, which is what CaptureHistory says of a run |
| Capture.CaptureStore.SettleEvidence | src/cache-ledger.ts:1966-2035 | a settle uses its pair, moves or drops the baseline and clears the pending evidence by the settling function, which is what CaptureHistory says of a run |
| Capture.EvidenceIsOwn | src/cache-ledger.ts:499-536 | the pending evidence of a captured request is what its own events alone would leave, in any interleaving |
| Capture.SettleReadsOwn | src/cache-ledger.ts:533-536 | a settle inside a capture reads a body its own request noted |
| Capture.ComparisonsRunForward | src/cache-ledger.ts:1966-2018 | every stability proof and seam booking compares an earlier send with a later one |
| Capture.BaselineWasRead | src/cache-ledger.ts:2019-2035 | in every run the baseline is a body that some settle of that session read |
| Capture.BaselineAdvances | src/cache-ledger.ts:2019-2035 | while a baseline stands, every settle of the session moves it to a later send and nothing else moves it |
| Capture.AllRunForward | src/cache-ledger.ts:1369-1391 | all compared bodies of a run, fold prefixes included, stand in send order exactly when no settle measures a fold prefix while it meets the guard the other two uses heed |
| Capture.FoldPrefixMayRunBackwards | src/cache-ledger.ts:1369-1391 | a run in which a fold prefix does |
| Capture.SharedSlotMixes | src/cache-ledger.ts:533-536 | after any run, of two lanes without a capture the first to settle takes the other's body for its baseline, and the other drops the baseline |
| CaptureHistory.SettlesWhatItSent | src/cache-ledger.ts:1966-2035 | whatever else interleaves, a settle of a captured request pairs the body the request sent last, under its number among all sends, with the session's baseline: exactly those comparisons are made, that body becomes the baseline or, sent before it, drops it, and nothing stays pending |
| CaptureHistory.SettleWithoutSend | src/cache-ledger.ts:2019-2024 | a settle of a captured request that sent nothing compares nothing and drops the baseline |
| CaptureHistory.SettlesItsList | src/cache-ledger.ts:2026-2035 | the list of the first round is carried over with the body, unless the baseline is dropped |
| CaptureHistory.RetryForgetsList | src/cache-ledger.ts:762-765 | a second round forgets the list of the first |
| CaptureHistory.ResendKeeps | src/cache-ledger.ts:741-761 | a body sent again without its count or credential keeps those of the first send; another body has none |
| CaptureHistory.EndForgets | src/cache-ledger.ts:513-527 | the end of a capture leaves nothing pending |
| KeepaliveState.Keeper.ArmSession | src/cache-keepalive.ts:291-346 | arming moves the keeper's whole state by the arming step, which is what KeepaliveSteps.ArmDoes says |
| KeepaliveState.Keeper.FirePing | src/cache-keepalive.ts:349-375 | a fired timer moves the keeper's whole state by the firing step, which is what KeepaliveSteps.FireDoes says |
| KeepaliveState.Keeper.ReplyArrived | src/cache-keepalive.ts:375-381 | a reply moves the keeper's whole state by the answering step, which is what KeepaliveSteps.AnswerDoes says |
| KeepaliveState.Keeper.BodyArrived | src/cache-keepalive.ts:382-407 | a body moves the keeper's whole state by the reading step, which is what KeepaliveSteps.ReadDoes says |
| Keepalive.RegisteredInOnePhase | src/cache-keepalive.ts:247-453 | in every run a registered snapshot waits for exactly one of its single timer, a reply, or a body, and has failed less than three times |
| Keepalive.PingsAreBounded | src/cache-keepalive.ts:349-425 | no snapshot with a positive cadence sends more than its duration divided by it |
| Keepalive.PingsOnlyRegistered | src/cache-keepalive.ts:349-375 | a step sends a ping only for the snapshot its session has registered, before and after |
| Keepalive.StaleVerdict | src/cache-keepalive.ts:381-405 | a replaced snapshot's late body disarms the newer one exactly on a rate limit or a zero hit |
| Keepalive.LateBodyDisarms | src/cache-keepalive.ts:381-405 | a run from the start in which such a late body leaves the session without a snapshot |
| Keepalive.CapHolds | src/cache-keepalive.ts:306-319 | arming never lets the number of snapshots grow beyond the cap |
| KeepaliveSteps.ArmDoes | src/cache-keepalive.ts:291-346 | in every run arming forgets a snapshot for another credential; with a cadence it drops the snapshot armed longest ago when the session has none and the registry is full, cancels what the old one waits for, and puts the new one in its place with one timer a cadence away |
| KeepaliveSteps.FireDoes | src/cache-keepalive.ts:349-375 | in every run a due timer is used up, and wakes only a snapshot its session still has: that is dropped when its time is over or the session gone, waits five seconds while a request is on its way, and is pinged once otherwise |
| KeepaliveSteps.AnswerDoes | src/cache-keepalive.ts:365-381 | in every run a reply ends the flight; an error is a failure, of which the third in a row drops the snapshot and the others wait another cadence; else the body is read while the snapshot stands |
| KeepaliveSteps.ReadDoes | src/cache-keepalive.ts:381-425 | in every run a rate limit or a zero hit drops whatever the session has, an error is a failure of this snapshot, and a hit clears its failures and waits another cadence |
| KeepaliveSteps.TurnOffDoes | src/cache-keepalive.ts:447-453 | turning the feature off drops the session's snapshot and its timer |
| HermesRouting.Plugin.RouteEnv | hermes-plugin/__init__.py:1207-1230 | routing takes the snapshot, overwrites and commits by the routing step, including where it breaks off, which is what HermesHistory.RouteWrites says |
| HermesRouting.Plugin.UnrouteEnv | hermes-plugin/__init__.py:1235-1246 | unrouting restores each routed variable from the snapshot |
| HermesRouting.Plugin.CommitTools | hermes-plugin/__init__.py:1375-1397 | tools are registered one by one and readiness committed, or nothing after an unload |
| HermesRouting.Plugin.WatchdogVerdict | hermes-plugin/__init__.py:1299-1317 | a death verdict acts only on the current generation, origin and no recovery in flight |
| HermesRouting.RestoredUnlessBrokenOff | hermes-plugin/__init__.py:1202-1246 | in any interleaving, whenever routing is not applied the environment is what everybody else made it exactly when no routing that broke off is left over, which is when no snapshot is kept |
| HermesRouting.UnappliedMeansRestored | hermes-plugin/__init__.py:1202-1246 | in particular, if no certificate probe raises, the environment is restored whenever routing is not applied |
| HermesRouting.InterruptedRouting | hermes-plugin/__init__.py:1218-1230 | a raising probe leaves the proxy variables routed with nothing applied |
| HermesRouting.NothingWhileUnloaded | hermes-plugin/__init__.py:1519-1547 | after an unload no routing and no tool registration is committed until the next load |
| HermesHistory.RouteWrites | hermes-plugin/__init__.py:1207-1230 | in every run routing a running plugin sets both proxy variables to the origin and each certificate variable to the file its probe finds, a raising probe leaves the rest undone, no other variable moves, and a stopped plugin routes nothing |
| HermesHistory.AppliedMeansRouted | hermes-plugin/__init__.py:1202-1246 | whenever routing is applied both proxy variables hold the origin of the last routing that was not refused |
| HermesHistory.VerdictActs | hermes-plugin/__init__.py:1299-1317 | a death verdict of the current generation and origin, while routed and not recovering, gives the environment back to everybody else and starts a recovery; any other does nothing |
| HermesHistory.ReadyMeansArmed | hermes-plugin/__init__.py:1375-1397 | the tools are ready exactly when they were armed and neither an unload nor an acted verdict has come since |
| HermesHistory.InstallRegisters | hermes-plugin/__init__.py:1375-1397 | installing tools into a running plugin registers each of them once, in order, and then announces them |
| HermesHistory.LifeIsLast | hermes-plugin/__init__.py:1519-1547 | the plugin is stopped exactly when the last lifecycle event was an unload, loaded exactly when it was a load, and its generation counts the turnovers |
| Persist.MergeWithDisk | src/affinity-persist.ts:61-78 | the two loops over disk and memory compute the merge and its fork count |
| Persist.MergeIsJoin | src/affinity-persist.ts:61-78 | each id ends with the greatest of its entries by depth, then freshness |
| PersistMerge.MergeChooses | src/affinity-persist.ts:61-78 | under each id of its own the process's chain is kept when it is deeper, or as deep and seen no earlier, than the file's, and the file's otherwise |
| PersistMerge.LastOnDisk | src/affinity-persist.ts:65-66 | of several entries with one id in the file the last counts |
| PersistMerge.OthersStay | src/affinity-persist.ts:65-78 | a chain only the file has stays as it is |
| PersistMerge.ForksAreCounted | src/affinity-persist.ts:67-76 | the reported forks are exactly the process's chains whose id the file holds at the same depth with another tail |
| PersistMerge.MergeOrder | src/affinity-persist.ts:65-78 | the file's order is kept, and what only the process has follows in its own order |
| PersistMerge.CapKeepsOrder | src/affinity-persist.ts:85-88 | over 1024 entries the file is sorted latest seen first, and of those seen at one time the first ones are kept in their order |
| Persist.NormalizeDropsOldest | src/affinity-persist.ts:85-88 | under the cap nothing changes, over it exactly the least recently seen surplus is dropped |
| Persist.DiskIsJoin | src/affinity-persist.ts:90-121 | after any sequence of writes by any processes the file holds the greatest chain ever on disk or written |
| Persist.DiskNeverDecreases | src/affinity-persist.ts:90-121 | no id's depth and freshness on disk ever decreases |
| Persist.OrderDoesNotMatter | src/affinity-persist.ts:90-121 | two orders of the same writes leave equally deep and fresh chains |
| Persist.FailedReadKeeps | src/affinity-persist.ts:35-54 | under the cap, a write whose read failed lowers no chain exactly when its own snapshot has one at least as good for every id on disk |
| Persist.FailedReadLoses | src/affinity-persist.ts:35-54 | an empty snapshot loses whatever was there |
| PersistTimer.AffinityPersister.ScheduleAffinityPersist | src/affinity-persist.ts:130-143 | the debounce moves timer and start by the scheduling step, which is what PersistDelay.WritesWhenDue says |
| PersistTimer.NothingStaysUnsaved | src/affinity-persist.ts:130-143 | with timely timers an unsaved change is never older than five seconds nor followed by more than half a second of quiet |
| PersistTimer.ChangesAreWritten | src/affinity-persist.ts:130-143 | every change is written within five seconds, and within half a second when none follows it |
| PersistDelay.WritesWhenDue | src/affinity-persist.ts:130-143 | in every run the pending write is due half a second after the last change, but five seconds after the first unsaved one at most, and a timer that fires writes exactly from then on |
| Bits.PopcountIsCount | src/affinity-simhash.ts:100-105 | the bit trick counts the set bits |
| Simhash.HammingIsDistance | src/affinity-simhash.ts:89-105 | the distance of two printed sketches is the number of bits in which they differ |
| Simhash.DistanceIsMetric | src/affinity-simhash.ts:89-105 | that distance is a metric of at most 64 |
| Simhash.SampleIsBounded | src/affinity-simhash.ts:68-70 | at most 256 features are sampled, all of them when there are no more |
| SketchLaws.SamplesEveryStep | src/affinity-simhash.ts:68-70 | the sampled features are those at every multiple of the least step that leaves at most 256 of them |
| SketchLaws.FeaturesAre | src/affinity-simhash.ts:56-67 | each word with its follower is a feature; a single word is one; without words the text is |
| SketchLaws.FnvTakes | src/affinity-simhash.ts:41-48 | a feature is hashed by FNV-1a: one unit after the other is mixed in, SketchLaws.MixIs says how |
| SketchLaws.MixIs | src/affinity-simhash.ts:41-48 | a unit is mixed in by exclusive or, then the product with the FNV prime is taken |
| SketchLaws.VoteIs | src/affinity-simhash.ts:71-75 | a feature votes on 64 bits by two such hashes from two bases |
| SketchLaws.DigitsSayTallies | src/affinity-simhash.ts:55-85 | the sixteen digits of a sketch, read from the right, are its 64 bits, each set exactly when its tally over the sampled features, wrapped into a signed byte, is positive |
| Simhash.CountVotes | src/affinity-simhash.ts:69-77 | the signed 8-bit counters hold the wrapped margin of the sampled features |
| Simhash.BitIsMajority | src/affinity-simhash.ts:69-83 | a sketch bit is the strict majority exactly when the margin fits a signed byte or is -256; always so with at most 127 features |
| Simhash.UnanimousOverflow | src/affinity-simhash.ts:55-85 | a text that repeats one word 201 times: every bit goes against all 200 equal features |
| Simhash.ComputeSketch | src/affinity-simhash.ts:55-85 | the loops compute the sketch function, whose digits are what SketchLaws.DigitsSayTallies says |
| Simhash.SketchMemo.SketchForCanonical | src/affinity-simhash.ts:117-134 | the bounded memo always returns what computing afresh would, and keeps recency order |
| SketchLaws.MemoIsRecent | src/affinity-simhash.ts:117-134 | after any run of lookups the memo holds the 8192 keys looked up last, in the order of their last use |

## Left out

- Google carriers: their part order comes from a normalisation that is not part of this model.
- SHA-256: a parameter of stamping and evaluation, and an injective name for what it hashes in fragments, item hashes and body digests.
- JSON.parse: a parameter of the projection and of the wire comparison; where a law needs it, it undoes JSON.stringify.
- Numbers: a JSON number is its printed text, so arithmetic on it and rounding while parsing are not modelled; the tag's version above 2^53 is kept exact, its time is rounded as a double.
- Checkpoint environment overrides: the skew and recency windows are parameters.
- EmbeddedStrip.MessageList.StripEmbedded: part lists are values spliced back into their message, so aliasing between two messages sharing one part list is not modelled.
- NeutralIdentity.SameIdentityOnBothWires: JSON.parse undoes JSON.stringify on tool arguments up to key order and the sign of zero; on responses and google, thinking is not rendered, and each tool result is an item of its own.
- WireVerdicts.SeenVerdict: ASCII bodies only, since byte offsets are compared with string offsets there.
- SerializedScan.FindsTheMessages: compact serializations; on other byte strings the scanner is only equal to its byte-at-a-time form.
- Ledger percentages: computed as exact fractions instead of doubles; the two warm thresholds keep their different rounding.
- Ledger economics: avoided tokens, coverage fractions, first hit rates and price profiles of folds.
- LedgerState.CacheLedger.RecordCacheSample: avoided tokens, coverage and first hit rates of folds are not accrued; the wire-measured prefix and the client's list comparison come in with the sample and the evidence; the fold numbers it requires to be distinct are so in every run (LedgerTotals.RunSound).
- LedgerState.CacheLedger.DetectSeam: the out-of-order mark a line keeps for the report, and the forensic event log.
- LedgerState.CacheLedger.PushFold: the request count an open fold freezes when the next one is cut, since it counts covered fractions of samples.
- LedgerSeams.LineBlamed: a message is its serialized text, a client's message its fingerprint; which messages a body parses to comes in with the body.
- Restored ledgers: a ledger loaded from disk with missing counters starts here as an empty one.
- Capture.CaptureStore.NoteForwardedBody: capped heads, retained full bodies and the effort fingerprint of a slot.
- Keepalive.PingsAreBounded: time never runs backwards and timers are never early; the clock of the program may be set back.
- Keepalive configuration: which tier a request resolves to is a parameter of arming.
- HermesRouting.RestoredUnlessBrokenOff: nobody else writes a routed variable while it is overwritten, the plugin's origins are its own, and a critical section is one step.
- Hermes across generations: a bootstrap thread that outlives its unload and runs on after the next load.
- PersistTimer.NothingStaysUnsaved: writes succeed and timers fire when due.
- Persist.DiskNeverDecreases: reads succeed and all processes together know at most 1024 sessions; Persist.NormalizeDropsOldest says what the cap drops.
- Simhash.HammingIsDistance: sixteen-character strings that are not lower-case hexadecimal.
- Simhash.SketchMemo.SketchForCanonical: the Unicode word pattern is a parameter, and a caller's item hash is the hash of its text.
- Learned estimates: the calibration ring and the learned image costs are clamps of single functions.
- Report text, web panel, files, network, processes and configuration.

# OnlyAlpha: the account ledger, its recovery, and the contract tools

A Dafny model of the parts of OnlyAlpha whose correctness is hardest to see from the code:

* **The account ledger** (`crates/account`). A journaled state machine over cash, reservations, receivables, margin
  rows, broker reconciliation flags, receipts and business identities. A command is normalised, deduplicated by
  command id and by business identity, run on a candidate copy, validated and committed atomically. Around it: cold
  recovery by replay, the faster exact extension, the dictionary checkpoint (schema 5) with its exact size
  arithmetic, the memoised encoding, and the performance report with exact half-even rounding.
* **The API compatibility checker** (`scripts/openapi_contract.py`). A recursive, variance-aware comparison of JSON
  schemas with a shared visited set.
* **Three generation loops**: paged history download, the reference closure of a schema, and the dependency order of
  definitions.

The repository promises immutable historical facts, forward recovery only, and failing closed (README.md:94-99). The
main results say so over every run and every input.

## How the project is laid out

| module | what it holds |
|---|---|
| `Core`, `Model`, `Codec` | values, canonical amounts, the records, the canonical JSON bytes and the dictionary format |
| `Amounts`, `Encodings`, `Wires` | what canonical amounts mean, and why no two values and no two commands share their bytes |
| `Transitions`, `Runs` | the specification of one command and of whole runs |
| `Managers`, `Dictionaries` | the manager class and the loops of the code, each proved against the specification |
| `Frames`, `Lifecycle`, `Conservation`, `Books`, `Receivables`, `AdmissionGuarantee`, `Reconciliation`, `Redelivery` | what every run keeps |
| `Holds`, `Histories`, `Clocks`, `Verdicts`, `Evidence` | every field of a reachable account, told by its journal alone |
| `Identities`, `Acceptance` | what takes effect once, how repetitions are answered, and exactly which commands are journaled |
| `Recovery`, `Checkpoints` | replay, round trip, fast path against slow path, exactly which records are accepted and exist, exact sizes |
| `Rounding`, `Drawdown`, `Performance`, `Reports` | the performance report |
| `Schemas`, `Plans`, `Compatibility` | which values a schema accepts, what one comparison reports, and the checker |
| `Overlays`, `Inclusion`, `Alternatives`, `Guards`, `Gaps` | the checker's reading of references, its soundness, when the premises are met, and its limits |
| `Paging`, `Selection`, `Ordering`, `Walks` | the generation loops |

Reading guide. `Transitions.Step` is one command on one ledger; `Runs.Execute` is any sequence of commands from a new
account, with the status each journaled command got. Money is an `int` in minor units of the currency; an analytical
value is a decimal (coefficient and scale) or its real value. `Setup` holds what stays fixed while a manager lives:
configuration, checkpoint version, the margin and position producers, the digest of a position body, and the resource
limits. `Holds` to `Evidence` speak of the journal entries and their answers only, so they say what each field must be
without reading a transition. The producers and limits are arbitrary functions, so every theorem holds for all of
them; the two theorems that need something of a producer say so (`MarginSound`: no negative margin amount;
`ValueSound`: the evidence is the digest of the position body). Where the code stores the SHA-256 of a command or of a
record, the model stores the content.

## Model

| member | source | states |
|---|---|---|
| Model.NormalizeIdempotent | crates/account/src/model.rs:358-514 | a canonical command is its own normal form, for every payload kind |
| Amounts.NormalizeMeans | crates/account/src/model.rs:358-514 | refused exactly when a written amount has too many digits after the point, is out of range or is negative where it may not be; otherwise every amount keeps its value and every other field stays |
| Amounts.MoneyMeans | crates/account/src/model.rs:112-132 | a canonical amount has the currency scale and the value that was written; refused exactly beyond the scale bounds |
| Amounts.AnalyticalRecordMeans | crates/account/src/model.rs:140-164 | an analytical value keeps its value; it is written at the currency scale, or finer without a trailing zero |
| Model.AnalyticalRecordIdempotent | crates/account/src/model.rs:140-164 | stripping zeros and padding to the currency scale is a projection |
| Model.CanonicalTrade | crates/account/src/model.rs:112-139 | the amounts of a canonical fill are non-negative minor units at the currency scale |
| Model.RemainingUpdate | crates/account/src/model.rs:245-271 | how replacing one reservation moves the reserved and the consumed totals |
| Managers.SumValues | crates/account/src/model.rs:245-265 | the summing loop computes the order-independent sum of a map |
| Managers.Manager.constructor | crates/account/src/manager.rs:17-40 | a new account: genesis state, empty journal, empty memo |
| Managers.Manager.Clone | crates/account/src/recovery.rs:273-273 | a clone has the same value and a coherent memo |
| Managers.Manager.Reserve | crates/account/src/reservation.rs:5-36 | refines the reservation step: error cases in order, else exactly one new hold |
| Managers.Manager.Stage | crates/account/src/reservation.rs:37-71 | refines the staging step of one hold |
| Managers.Manager.Release | crates/account/src/reservation.rs:72-111 | refines the release step: repeated outcome is a duplicate, a different one is refused |
| Managers.Manager.Consume | crates/account/src/reservation.rs:112-142 | refines the consumption step of a purchase |
| Managers.Manager.Trade | crates/account/src/manager.rs:352-400 | refines the fill step: stale fills only raise the flag |
| Managers.Manager.ChangeCash | crates/account/src/manager.rs:276-289 | refines deposits and withdrawals |
| Managers.Manager.BookEconomic | crates/account/src/manager.rs:290-299 | refines economic cash flows |
| Managers.Manager.Settle | crates/account/src/manager.rs:300-313 | refines settlement of a receivable |
| Managers.Manager.InstallValuation | crates/account/src/manager.rs:314-349 | refines installing a valuation of the position producer |
| Managers.Manager.InstallMargin | crates/account/src/manager.rs:401-457 | refines installing a margin row of the margin producer |
| Managers.Manager.CompareFigures | crates/account/src/reconciliation.rs:29-42 | the five comparisons give exactly the differing figures, in order |
| Managers.Manager.ObserveBroker | crates/account/src/reconciliation.rs:4-51 | refines the broker step: stale, unproven, differing and matching observations |
| Managers.Manager.Transit | crates/account/src/manager.rs:265-351 | refines the dispatch, with its time regression guard |
| Managers.Manager.Validated | crates/account/src/model.rs:272-300 | the final check: cash, market value, withdrawable, and every hold's conservation |
| Managers.Manager.Note | crates/account/src/manager.rs:212-240 | bookkeeping of an accepted command and the incremental byte count |
| Managers.Manager.Propose | crates/account/src/manager.rs:204-253 | works on a candidate only; the manager itself is not modified |
| Managers.Manager.AcceptCanonical | crates/account/src/manager.rs:147-263 | receipts, identities, gates, atomic commit; a refusal leaves value and memo as they were |
| Managers.Manager.ApplyInner | crates/account/src/manager.rs:107-264 | takes exactly the specified step and stays a reachable account with a coherent memo |
| Managers.Manager.EncodeDictionary | crates/account/src/recovery.rs:129-153 | the encoding loop computes the dictionary compression of the journal, or its first error |
| Managers.Manager.CachedCheckpoint | crates/account/src/recovery.rs:160-195 | always answers with a fresh encoding of the current value, and fills the memo with it |
| Managers.Manager.Restore | crates/account/src/recovery.rs:196-256 | cold recovery: exactly the specified result, or nothing changes at all |
| Managers.Manager.Rebuild | crates/account/src/recovery.rs:222-253 | replays a record on a new account and accepts it exactly when the two agree |
| Managers.Manager.RestoreExactExtension | crates/account/src/recovery.rs:259-297 | exact extension: exactly the specified result, or nothing changes at all |
| Managers.Manager.Continue | crates/account/src/recovery.rs:273-294 | replays the rest of a record on a clone and accepts it exactly when it ends in the record |
| Managers.OriginalMatches | crates/account/src/recovery.rs:97-127 | comparing through the reference is comparing with the hydrated command |
| Managers.PrefixMatches | crates/account/src/recovery.rs:264-272 | accepts exactly when the record's first commands are this journal |
| Managers.Manager.MeasurePerformance | crates/account/src/performance.rs:68-140 | refused exactly for a genesis after some command or for want of a checkpoint; otherwise the report describes the run |
| Managers.Manager.WalkJournal | crates/account/src/performance.rs:69-114 | the replay loop ends in this very account and accumulates the specified path values |
| Managers.Manager.WalkEntry | crates/account/src/performance.rs:82-113 | each replayed entry appends one journal entry, so the history conflict branch is dead |
| Runs.StepShape | crates/account/src/manager.rs:107-264 | an accepted command changes nothing or appends its canonical form, and replaying that form takes the same step |
| Lifecycle.EveryRunWellHeld | crates/account/src/reservation.rs:5-142 | in every reachable account each hold is conserved, is terminal exactly when empty, is sent if anything happened to it, and has its own order |
| Lifecycle.TerminalForever | crates/account/src/reservation.rs:37-142 | over any continuation holds persist and terminal ones never change again |
| Conservation.EveryRunConserved | crates/account/src/manager.rs:276-299 | cash, fees and consumed holds equal the sums over the applied journal entries |
| Conservation.TransitionBalances | crates/account/src/manager.rs:352-397 | what one command moves in cash, fees and consumed amounts |
| Books.EveryRunKept | crates/account/src/manager.rs:147-239 | receipts are the journal by command id, non-duplicate entries share no identity, the sequence counts them, and the final check holds |
| Identities.SharesMeet | crates/account/src/manager.rs:170-189 | two commands share a business identity exactly when the fields that carry it are equal, kind by kind |
| Identities.EveryEffectOnce | crates/account/src/manager.rs:170-239 | in every run no trade, execution, venue trade, fee, hold, change, cash flow, source fact, margin command, settlement, valuation or snapshot takes effect twice |
| Identities.KnownIdAnswered | crates/account/src/manager.rs:147-153 | a journaled command id is answered Duplicate for the same canonical command and Conflict for any other, and nothing changes |
| Identities.ConflictAnswered | crates/account/src/manager.rs:190-202 | a new command is answered Conflict exactly when the journal has other content under one of its identities |
| Identities.EveryRunRepeats | crates/account/src/manager.rs:203-216 | releases aside, an entry is a duplicate exactly when an earlier entry has the same content and its kind carries an identity |
| Acceptance.AllowedExactly | crates/account/src/manager.rs:265-457 | a canonical command takes effect exactly when the account's own figures allow it, guard by guard for every kind |
| Acceptance.JournaledExactly | crates/account/src/manager.rs:107-264 | a command is journaled exactly when its id is new, no entry contradicts it, it repeats an entry or is allowed, and the account after it is solvent and within the caps |
| Acceptance.EveryEntryCleared | crates/account/src/manager.rs:154-254 | every account a run passes through is solvent, and every entry of a capped kind was within the caps before and after |
| Holds.EveryHoldTold | crates/account/src/reservation.rs:5-142 | each hold has the order and amount of the command that opened it, was spent only by purchases for that order and by their notional and charges, and every mark and its ending are those of its stages, releases and fills |
| Histories.EveryFigureTold | crates/account/src/manager.rs:276-397 | realised result and economic version add up over the journal; rounding, unrealised result and position evidence are the last ones said; market value is the last valuation's, moved by the fills since |
| Histories.EverySequenceTold | crates/account/src/manager.rs:314-397 | trade, broker and valuation sequences are the last applied ones and strictly rise |
| Clocks.EveryTimeTold | crates/account/src/manager.rs:220-229 | the clock is the latest time of the entries that were not duplicates, nothing older than an earlier entry is applied, and a fill or observation is stale exactly when its number or its time has been passed |
| Verdicts.EveryFlagTold | crates/account/src/reconciliation.rs:18-49 | the stale trade flag is up exactly when some fill was stale, the missing proof flag exactly when the last observation was not proven |
| Verdicts.DifferencesExactly | crates/account/src/reconciliation.rs:29-42 | a figure is listed exactly when the observation names another amount, once and in a fixed order |
| Verdicts.EveryDifferenceTold | crates/account/src/reconciliation.rs:18-49 | the recorded differences are those of the last proven observation with the account as it was then |
| Evidence.EveryFillAttested | crates/account/src/manager.rs:217-219 | the evidence on record is that of the applied fills, field by field |
| Evidence.EveryRowTold | crates/account/src/manager.rs:401-457 | the margin rows are those the margin entries produced in turn, each from the row before it |
| Books.CommitBooks | crates/account/src/manager.rs:190-239 | one commit keeps receipts, identities and sequence right |
| Receivables.EveryRunClaims | crates/account/src/manager.rs:300-313 | for every trade id, deferred credit is outstanding plus settled, and never negative |
| Receivables.DeferredCreditConserved | crates/account/src/manager.rs:385-387 | each deferred fill's own credit is its outstanding claim plus all settlements against it |
| AdmissionGuarantee.FundedPurchase | crates/account/src/manager.rs:352-397 | a fresh fitting purchase never lowers the withdrawable amount and never trips the cash check |
| AdmissionGuarantee.SafeKindsPass | crates/account/src/model.rs:272-300 | reserving, staging, releasing, settling, cash changes, broker observations and valuations pass the final check once their own guards do |
| AdmissionGuarantee.EveryRunFunded | crates/account/src/model.rs:245-276 | every reachable account satisfies the premises of those two, given a sound margin producer |
| Reconciliation.EveryRunFlags | crates/account/src/reconciliation.rs:18-49 | the conflict flag is up exactly when differences are on record |
| Reconciliation.StaleTradeFreezesForever | crates/account/src/manager.rs:354-359 | after a stale trade no hold, withdrawal or new margin row is ever applied |
| Reconciliation.StaleFillFreezes | crates/account/src/manager.rs:354-359 | after a stale fill anywhere in a run the flag is up, and from the account right after it on no hold, withdrawal or new margin row is applied |
| Reconciliation.ConflictFreezesUntilCleared | crates/account/src/reconciliation.rs:18-49 | after a conflict none is applied until a verified observation at the exact sequence matches all five figures |
| Redelivery.TransitionIgnoresReceipts | crates/account/src/manager.rs:265-351 | no transition looks at the receipts |
| Redelivery.AcceptTwin | crates/account/src/manager.rs:147-263 | two accounts that differ by one receipt answer every other command alike, limits aside |
| Redelivery.RedeliveryInsensitive | crates/account/src/manager.rs:190-239 | inserting a redelivery anywhere after its first acceptance changes only receipts, journal and byte count |
| Codec.JournalSizeAppend | crates/account/src/manager.rs:234-240 | one more command costs its bytes and a comma unless it is the first |
| Codec.CompactSize | crates/account/src/recovery.rs:76-82 | replacing the reference by the body changes the bytes by exactly the computed amount |
| Codec.FullRecordSize | crates/account/src/recovery.rs:16-32 | envelope bytes plus journal bytes is the exact length of the full record |
| Encodings.EncodeInjective | crates/account/src/model.rs:40-48 | two values with the same canonical bytes are the same value: text, numbers and nesting can be read back |
| Wires.CommandsApart | crates/account/src/manager.rs:143-153 | two canonical commands with the same bytes are the same command |
| Codec.CompressLossless | crates/account/src/recovery.rs:129-159 | hydrating a compressed journal returns the journal |
| Codec.HydrateThenCompress | crates/account/src/recovery.rs:46-94 | compressing what a record stands for rebuilds its entries with exactly the bodies they refer to |
| Codec.CompressSucceeds | crates/account/src/recovery.rs:137-148 | over evidenced journals compression fails exactly on a digest collision |
| Dictionaries.EncodeOne | crates/account/src/recovery.rs:132-153 | one turn of the encoding loop |
| Dictionaries.MeasureJournal | crates/account/src/recovery.rs:62-89 | the weighted pass succeeds exactly when all references resolve, and adds up the exact size of the hydrated journal |
| Dictionaries.ValidateDictionary | crates/account/src/recovery.rs:46-94 | accepts exactly the dictionaries with matching digests, resolving references, no unused body and a full record within bounds |
| Recovery.ReplayRebuilds | crates/account/src/recovery.rs:222-239 | replaying the journal of any reachable account rebuilds state, statuses and journal, one entry per command |
| Recovery.RoundTrip | crates/account/src/recovery.rs:216-256 | restoring a reachable account's own checkpoint gives exactly that account |
| Recovery.RestoredExactly | crates/account/src/recovery.rs:196-256 | recovery succeeds exactly for a record equal to the expected one that is the checkpoint of some run, and gives that run's account |
| Recovery.ExtendedExactly | crates/account/src/recovery.rs:259-297 | extension succeeds exactly for the expected checkpoint of some run whose journal strictly extends this one, and gives that run's account |
| Checkpoints.DictionaryExactly | crates/account/src/recovery.rs:46-159 | a dictionary checkpoint exists exactly when all evidence is the digest of its body, no two bodies share one and the full record is within sixteen megabytes; it then holds every body by its evidence and hydrates to the journal |
| Recovery.ExtensionRefinesCold | crates/account/src/recovery.rs:259-297 | exact extension succeeds exactly when the record strictly extends the journal and cold recovery succeeds, with the same account |
| Recovery.EveryRunSized | crates/account/src/manager.rs:234-247 | the incremental count is the exact journal size, and schema 5 stays within its bound |
| Recovery.CheckpointExists | crates/account/src/recovery.rs:129-159 | with a sound position producer a schema 5 account has a checkpoint exactly when no two bodies share a digest |
| Rounding.HalfEven | crates/account/src/performance.rs:26-53 | the nearest integer, the even one of two |
| Rounding.HalfEvenLaws | crates/account/src/performance.rs:26-53 | it is the only such integer, and rounding is monotone and odd |
| Rounding.Ratio | crates/account/src/performance.rs:26-53 | integer arithmetic on scaled coefficients rounds the exact quotient at eight decimals; none for a non-positive divisor |
| Rounding.QuotientOfIntegers | crates/account/src/performance.rs:30-38 | clearing the scales by powers of ten leaves exactly the quotient of the operands' values, so their scales do not matter |
| Drawdown.EquityDrawdown | crates/account/src/performance.rs:56-66 | the rounded exact loss against a positive peak, nothing otherwise |
| Drawdown.TracksStep | crates/account/src/performance.rs:99-106 | comparing a new point with the running peak only keeps the all-pairs minimum |
| Drawdown.TracksAllPairs | crates/account/src/performance.rs:72-112 | the single-pass maximum drawdown is the all-pairs minimum of rounded losses, the rounding of the exact minimum, and in [-1, 0] |
| Performance.ReplayedPoint | crates/account/src/performance.rs:84-93 | every journal entry replays on its prefix with its first answer |
| Performance.Summarised | crates/account/src/performance.rs:117-134 | net result is trading and economic earnings plus market value, whatever was deposited or withdrawn; flags mean what they say |
| Reports.ReportTold | crates/account/src/performance.rs:72-114 | one point for genesis and one for every new entry, each cash plus market value at that moment; each flag is shown exactly when the journal raised it at some point |
| Performance.ReportedDrawdown | crates/account/src/performance.rs:99-134 | the reported maximum is the all-pairs minimum along the reported path |
| Plans.PlanReads | scripts/openapi_contract.py:533-734 | one comparison reports every break of its two resolved schemas once and nothing else, and goes on to exactly the places it should |
| Plans.FitsUnbroken | scripts/openapi_contract.py:533-734 | nothing breaks exactly when the narrow side fits the wide side and what may not change has not |
| Plans.BoundsRead | scripts/openapi_contract.py:496-511 | a bound is reported, once, exactly when the narrow side is not at least as tight |
| Plans.RemovedRead | scripts/openapi_contract.py:585-602 | a removed property is reported, once and at its own place, exactly when the old schema names it and the new one does not |
| Compatibility.UniverseCloses | scripts/openapi_contract.py:438-467 | from any start the comparisons that can follow form a finite set, which bounds the recursion |
| Compatibility.ComparisonState.Changes | scripts/openapi_contract.py:514-734 | terminates; new comparisons are visited once, each where it was sent, and every issue is in the answer as often as the visits report it; an error means one could not be read |
| Compatibility.ComparisonState.Follow | scripts/openapi_contract.py:535-734 | collects all issues of a plan and of the comparisons it goes on to, each as often as reported |
| Compatibility.SchemaChanges | scripts/openapi_contract.py:514-734 | visits exactly what can come up, lists exactly what is broken there, fails exactly when something that comes up cannot be read, and is empty exactly when a simulation contains the comparison |
| Overlays.BothMerged | scripts/openapi_contract.py:438-451 | a value that meets the definition and the keywords beside the reference meets the overlay the checker compares |
| Overlays.MergedBoth | scripts/openapi_contract.py:438-451 | a value that meets the overlay meets both, where the keywords beside the reference only tighten or add |
| Overlays.ResolvedMeans | scripts/openapi_contract.py:438-451 | under both conditions one step of overlay means exactly what JSON Schema 2020-12 means by the reference |
| Inclusion.StatedNames | scripts/openapi_contract.py:559-573 | adding the string type to a schema of property names changes nothing for names |
| Inclusion.FieldCarries | scripts/openapi_contract.py:585-623 | kept, added and other properties: a field accepted on the narrow side is accepted on the wide side |
| Inclusion.NegationCarries | scripts/openapi_contract.py:692-705 | under `not` the inclusion turns round |
| Inclusion.OneCarries | scripts/openapi_contract.py:671-690 | exactly one of several carries over when no two branches of the wide side meet |
| Inclusion.Included | scripts/openapi_contract.py:514-734 | in a simulation inside the fragment every comparison is an inclusion of accepted values, through recursive references |
| Inclusion.NoIssuesInclude | scripts/openapi_contract.py:514-734 | when the checker reports nothing and all comparisons that can come up are in the fragment: for responses new within old, for requests old within new |
| Alternatives.ApartDisjoint | scripts/openapi_contract.py:671-690 | alternatives told apart by type, by tag, or through the references, alternatives and conjuncts they are made of exclude each other |
| Inclusion.UnchangedSimilar | scripts/openapi_contract.py:514-734 | a document whose references and property-name schemas are objects is never reported against itself |
| Guards.GuardedExactly | scripts/openapi_contract.py:438-451 | a document can be ranked exactly when no definition leads back to itself at the same value |
| Gaps.AddedProperty | scripts/openapi_contract.py:603-623 | a property added to an open object is never reported for requests, and is harmless exactly when it accepts everything |
| Gaps.ReferenceChain | scripts/openapi_contract.py:438-451 | behind a reference to a bare reference nothing is compared; the inclusion then rests on the second hop alone |
| Gaps.WidenedBranch | scripts/openapi_contract.py:671-690 | widening a `oneOf` branch of plain types is never reported for requests, and is harmless exactly when the widened branch takes none of seven sample values that only the other branch took |
| Gaps.WidenedInteger | scripts/openapi_contract.py:671-690 | the instance: widening `integer` to `integer` or `string` beside `string` turns every text away |
| Gaps.SiblingOverride | scripts/openapi_contract.py:448-450 | a bound beside a reference hides the definition's: raising that goes unreported, and is harmless exactly when the raised bound or the one beside it is no looser than the old one |
| Gaps.SiblingLength | scripts/openapi_contract.py:448-450 | the definition goes from 5 to 8 beside a bound of 10, nothing is reported, and seven letters become a new response |
| Gaps.NameReference | scripts/openapi_contract.py:559-573 | changing the types behind a reference in `propertyNames` is never reported for responses, and is harmless exactly when text is not newly among them |
| Gaps.NameInteger | scripts/openapi_contract.py:559-573 | the instance: from `integer` to `string` every object with a field is newly accepted |
| Gaps.ForbiddenProperty | scripts/openapi_contract.py:438-440 | a property that was the schema `false` may be given types unreported in a response, and that is harmless exactly when the new property accepts nothing |
| Paging.Pages | scripts/provision_binance_golden.py:473-515 | terminates; returns the pages of the paging function or fails with it; each page answers its own query, and starts a step behind the full page before it |
| Paging.Fetch | scripts/provision_binance_golden.py:482-515 | the loop computes the paging function of any source that stays in its window and only cuts off earlier rows |
| Paging.ArchiveHonest | scripts/provision_binance_golden.py:182-207 | whatever its rows, the archive answers within the window, and a later start only cuts off earlier rows |
| Paging.PagingExact | scripts/provision_binance_golden.py:473-515 | the pages together are the rows with start <= time < end if and only if those rise within pages and keep the step across page boundaries |
| Paging.PagedSorted | scripts/provision_binance_golden.py:506-507 | whatever is paged rises in time within the window |
| Paging.OrderedArchive | scripts/provision_binance_golden.py:473-515 | an archive in time order is never refused |
| Paging.ApartPaged | scripts/provision_binance_golden.py:473-515 | rows at least one step apart (60000 ms for klines, 1 otherwise) are paged exactly for every page size |
| Paging.SkippedRow | scripts/provision_binance_golden.py:510-511 | a row closer than the step behind the last row of a page is lost without an error |
| Selection.Translator.Translate | scripts/native_http_contract.py:128-145 | renames one schema and selects exactly what it reaches beyond what was selected |
| Selection.Translator.TranslateField | scripts/native_http_contract.py:134-145 | marks a name before visiting its definition, so recursion ends |
| Selection.SchemaDocument | scripts/native_http_contract.py:123-148 | succeeds exactly when everything reachable is a defined local reference; selects the least closed set of definitions, each renamed |
| Selection.RenamedRestored | scripts/native_http_contract.py:128-145 | renaming changes the references and nothing else: every reference is local to the document, and it can be undone |
| Selection.RefsMean | scripts/native_http_contract.py:128-145 | the names followed are exactly those of the references found anywhere in the value |
| Selection.RenamedMentions | scripts/market_data_stream_contract.py:135-140 | after renaming a definition mentions exactly the names it referred to |
| Ordering.Definitions | scripts/market_data_stream_contract.py:120-132 | lists every definition once after those it mentions, and refuses exactly when there is a cycle |
| Ordering.StuckCycle | scripts/market_data_stream_contract.py:128-129 | when nothing is ready, the pending definitions contain a cycle |
| Ordering.NoCycle | scripts/market_data_stream_contract.py:120-132 | a listing in dependency order rules out every cycle |

## Where code and promise part

* Six habits of the compatibility checker are unsound. `Gaps` says of each exactly when it does no harm:
  * a property added to an open object is not compared for requests (`AddedProperty`);
  * only one step of reference is taken, so a definition that is itself a reference is not looked into
    (`ReferenceChain`);
  * a keyword beside a reference overrides the definition's, where JSON Schema 2020-12 asks for both
    (`SiblingOverride`, `SiblingLength`);
  * the type added to a schema of property names overrides the type behind a reference (`NameReference`);
  * `oneOf` branches are compared one by one, which is not an inclusion for exactly-one (`WidenedBranch`);
  * a boolean schema is read as an empty one, so `false` is taken for a schema that accepts everything
    (`ForbiddenProperty`).

  `Inclusion.Tame` excludes these families, on the comparisons that can come up. References mean what JSON
  Schema says, not what the checker makes of them; keywords beside a reference are in the fragment as long as they add
  to the definition or tighten it, and `oneOf` is as long as its alternatives exclude each other.
* Paging by 60000 ms loses a kline that follows the last row of a full page by less than a minute (`Paging.SkippedRow`).

## Left out

- Internals of the margin, position and domain crates: they are parameters of `Setup`.
- SHA-256 and JSON parsing: commands and records are compared by content; only the digest of a position body is a
  function, and it may collide.
- Model.NormalizeIdempotent: does not check ids, texts, field sets or digit counts (crates/account/src/model.rs:64-160),
  because records are typed and numbers unbounded; the code needs headroom at the digit limit for the same law.
- Managers.Manager.Validated: does not bound the digits of the final figures (crates/account/src/model.rs:272-300),
  because numbers are unbounded.
- Managers.Manager.ApplyInner: does not bound the bytes of a raw command (crates/account/src/manager.rs:110-118) and
  does not return the fact of an applied one, because records are typed and snapshots are left out.
- Managers.Manager.MeasurePerformance: does not give the timeline entries other than the equity, the final figures
  that the summary repeats, nor the report's identifiers, because they are copies and digests of what the run already
  determines.
- Wires.CommandsApart: asks that numbers inside position bodies, marks and margin records have no negative scale and
  that a margin command names its action and its id once, because the model's records could hold other values.
- Fixed-width overflow of sequences, versions and sizes.
- Command count, journal byte, map size and checkpoint byte limits: arbitrary predicates of `Setup`, except the exact
  schema 5 size.
- The wrappers that call `apply_inner` with a producer's effect.
- Which error code a refused recovery reports, beyond its being refused.
- Issue texts and the sorted order in which names are visited by the checker: the results hold for every order.
- Compatibility.SchemaChanges: does not tell two spellings of one schema apart (a type as a name or as a list of one
  name, `1` or `1.0` in an enumeration), which are one comparison in the model and two in the code.
- Discriminators, the meaning of regular expressions and formats (parameters), and comparison of
  operations, parameters and media types.
- Paging.Pages: models a non-negative page size and rows with integer timestamps, so the timestamp type errors are left
  out.
- Ordering.Definitions: a reference is text; other values under `$ref` are ignored rather than failing.
- Scripts around processes, containers, databases and browsers, and the front end: input and output around unseen tools.

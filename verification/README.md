# jobscout, verified

A Dafny model of the stateful core of jobscout, a Go program that fetches job postings from many sources, deduplicates,
filters and reviews them, and keeps a health record of the companies behind them. The model follows the code branch by
branch; each file below is one component.

| file | what it models |
|---|---|
| `SingleFlight.dfy` | one leader per key, any number of joiners, and a rule of what to forget: the protocol three caches share |
| `UrlVisits.dfy`, `LayoffsCache.dfy`, `ProfileEnricher.dfy`, `DetailCache.dfy` | the four caches, as classes whose critical sections are steps of a protocol; the host limiter |
| `Bounded.dfy` | `runBounded`, the browser page pool, the candidate limiter |
| `Jobs.dfy`, `MetadataLaws.dfy`, `MergeLaws.dfy`, `KeyedMerge.dfy` | jobs, the "fill only what is missing" merge, its algebra, field by field, and folding batches by key |
| `MergePlan.dfy`, `NameLaws.dfy`, `Dedupe.dfy` | `MergeJobs` and the review plan, which jobs they take for one, deduplication |
| `Finalize.dfy`, `FetchFates.dfy` | the tail of a fetch, where each job goes and what it carries |
| `LlmBatches.dfy`, `LlmFilter.dfy`, `LlmOutcomes.dfy` | batching by source and prompt size, verdicts and fallback, what becomes of each job |
| `QueryKey.dfy`, `KeyLaws.dfy` | canonical URL keys, which parameters they ignore |
| `Salary.dfy`, `SalaryLaws.dfy` | printed salaries and the pay filter |
| `Criteria.dfy`, `FilterLaws.dfy`, `DecisionStore.dfy`, `ReasonLaws.dfy` | criteria normal forms and the deterministic filter, when criteria filter alike, the decision store, what the reasons mean |
| `FieldEvidence.dfy`, `EvidenceLaws.dfy` | the evidence state machine, one observation in plain terms |
| `HealthScore.dfy`, `HealthLaws.dfy` | risk and score arithmetic, and in numbers |
| `IdentityPropagation.dfy`, `IdentityLaws.dfy` | same-company identity propagation, who lends and what a gap receives |
| `LlmConfig.dfy`, `ConfigLaws.dfy` | the two copies of the LLM configuration normalization, what each provider ends with |
| `Options.dfy`, `Text.dfy`, `Lex.dfy`, `Seqs.dfy` | missing values, string helpers, sorting, sequence facts |

Where comments and code differ the model follows the code: a comment at internal/domain/company_health_risk.go:106
promises 15 points for a stock 30% below its high and 40 at 80%, the formula below it gives 5 and 30
(`HealthLaws.DropInPercent`).

For most operations a file of laws says what they do without naming the functions they are proved to compute: in terms
of the fields, texts and numbers a caller sees.

Concurrency is modelled as state machines whose events are the code's critical sections; a theorem over runs holds of
every interleaving of any number of callers. A class keeps the source's fields, and each of its methods is proved to be
one event. Loops over Go maps pick their next key arbitrarily. The lemmas about folding jobs by key hold of every merge
and key function that leaves the key fields alone; `IdentityMerge` and `BY_NAME` are the source's.

Five findings, each with its exact condition:

- Merging the same batch twice is not always the same as merging it once (`MergePlan.MergingAgainChangesNothingIff`): a
  stored employee count under 2 blocks a plausible incoming one and is then dropped, so the second merge lets it in.
- Criteria with stray white space share a normal form with criteria that filter differently
  (`FilterLaws.UntidyEntriesDiffer`). An entry acts as its normal form exactly when it is trimmed, single-spaced and not
  blank (`ActsAsNormalIff`), two lists act alike exactly when their entries answer for each other (`ContainAlikeIff`,
  `MatchAlikeIff`, `PassAlikeIff`), and two criteria give all jobs the same reason exactly as `SameTitleReasonsIff` and
  `SameReasonsIff` say.
- An LLM score modifier keeps its sign and size exactly when the score was within its caps before
  (`HealthScore.HonestIffCapped`), which the score's own tail establishes.
- The two copies of the configuration normalization agree on a raw configuration exactly when it names a provider order
  and the copy without the guard takes over no other provider's key that changes the result
  (`LlmConfig.CopiesAgreeIff`); after either copy both agree.
- A larger layoff can weigh less than a smaller one: exactly above 10000 employees, where a cut of a thousand people
  short of a tenth of the workforce weighs more than one of a tenth (`HealthScore.ScaleIsMonotoneIff`).

## Model

| member | source | states |
|---|---|---|
| `SingleFlight.ApplyKeepsInv` | internal/fetcher/url_visit_registry.go:86-171 | One atomic step of any caller (enter, finish, wake, give up) keeps the invariant: each unfinished call sits in its key's slot with its leader still fetching, no forgotten result is left in a slot, every waiter holds a real call, entered calls are fetches plus hits. |
| `SingleFlight.InvOverRun` | internal/fetcher/url_visit_registry.go:86-171 | That invariant holds in every state of every run of any number of callers, for any rule of what to forget. |
| `SingleFlight.OneLeaderPerKey` | internal/fetcher/url_visit_registry.go:96-109 | Two running direct fetches of one key are the same fetch, and the slot of the key is that leader's own entry, so its delete removes only its own. |
| `SingleFlight.ReturnedIsLeaders` | internal/fetcher/url_visit_registry.go:100-102 | A caller that returns through the entry holds exactly what the entry's leader returned. |
| `SingleFlight.NoStrandedWaiter` | internal/fetcher/url_visit_registry.go:96-122 | A waiting caller can wake now, or its leader is still fetching: nobody waits on an abandoned entry. |
| `SingleFlight.EntersItsKey` | internal/fetcher/url_visit_registry.go:96-109 | A caller that enters leads or waits on an entry of the very key it asked for. |
| `SingleFlight.AnswersItsKey` | internal/fetcher/url_visit_registry.go:96-122 | Whatever happens afterwards, what it waits for or returns is a fetch of that key. |
| `SingleFlight.ResultsArePermanent` | internal/fetcher/url_visit_registry.go:112-122 | An entry's key, leader and result never change once set, even after the slot has forgotten it. |
| `SingleFlight.KeptResultStopsFetching` | internal/fetcher/url_visit_registry.go:96-122 | After a result that is not forgotten no fetch of that key ever starts again, and the slot answers with it for the rest of the run. |
| `SingleFlight.JoinerInheritsForgottenResult` | internal/fetcher/url_visit_registry.go:100-102 | A run in which a joiner whose own context is alive returns its leader's forgotten result after the slot is already empty. |
| `UrlVisits.Registry.BeginFetch` | internal/fetcher/url_visit_registry.go:86-110 | The first critical section of FetchApplyPage is one enter event of the protocol on the page table, and bypasses the registry exactly for a URL without a key. |
| `UrlVisits.Registry.FinishFetch` | internal/fetcher/url_visit_registry.go:114-122 | The last critical section stores the three results as one finish event; however often the error is wrapped, the key leaves the table exactly when its root is a cancellation or a deadline. |
| `UrlVisits.Registry.BeginProbe` | internal/fetcher/url_visit_registry.go:129-153 | The same for ProbeURL on the probe table, whose keys carry the trimmed upper-case method. |
| `UrlVisits.Registry.FinishProbe` | internal/fetcher/url_visit_registry.go:157-163 | The same end for probes. |
| `UrlVisits.ForgottenIffCancelled` | internal/fetcher/url_visit_registry.go:169-171 | A root error under any number of wrappings is forgotten exactly when it is a cancellation or a deadline. |
| `UrlVisits.ProbeKeysAlikeIff` | internal/fetcher/url_visit_registry.go:90-133 | Page and probe entries are apart; pages share one exactly for one URL, probes exactly for one URL and one verb, its case and surrounding space aside. |
| `UrlVisits.Registry.Observe` | internal/fetcher/url_visit_registry.go:100-102 | A joiner returns the stored result and nothing else changes. |
| `UrlVisits.Registry.Abandon` | internal/fetcher/url_visit_registry.go:103-105 | A joiner whose own context ends changes neither table nor counters. |
| `UrlVisits.Registry.Stats` | internal/fetcher/url_visit_registry.go:77-84 | In every reachable state the counters add up: fetches are the leaders, fetches plus hits are all calls that entered, and the two table sizes are the slots. |
| `UrlVisits.RegistrySafety` | internal/fetcher/url_visit_registry.go:86-171 | In every reachable state of any number of page and probe calls: one direct fetch per key with its own entry in the slot, no finished entry left whose error is a cancellation or deadline wrapped to any depth, counters adding up, and each caller returning through `done` holding its own leader's result. |
| `UrlVisits.OneLastingFetchPerKey` | internal/fetcher/url_visit_registry.go:117-119 | If a key is fetched again, every earlier fetch of it ended in a cancellation or deadline error, wrapped or not. |
| `UrlVisits.LiveJoinerGetsCancellation` | internal/fetcher/url_visit_registry.go:100-102 | The joiner of a cancelled leader returns that cancellation although its own context never ended. |
| `LayoffsCache.DataCache.Begin` | internal/fetcher/company_health_layoffs_fyi.go:61-71 | Joining or leading is one enter event, leading exactly when there is no entry. |
| `LayoffsCache.DataCache.Finish` | internal/fetcher/company_health_layoffs_fyi.go:75-82 | The leader stores data and error; any error empties the slot. |
| `LayoffsCache.OneFetchInFlight` | internal/fetcher/company_health_layoffs_fyi.go:57-85 | There are never two fetches in flight. |
| `LayoffsCache.EveryFetchButTheLastFailed` | internal/fetcher/company_health_layoffs_fyi.go:57-85 | Every fetch but the last has failed, so at most one ever succeeds and each later fetch follows a failed one. |
| `LayoffsCache.SuccessIsFinal` | internal/fetcher/company_health_layoffs_fyi.go:62-67 | After a success every caller that returns data returns that success. |
| `ProfileEnricher.HostLimiter.Reserve` | internal/fetcher/source_profile_enrichment.go:213-228 | A Built In fetch takes the later of the clock and the next free slot and moves the next slot one interval on; a blocked limiter refuses, other hosts are not limited. |
| `ProfileEnricher.HostLimiter.FinalCheck` | internal/fetcher/source_profile_enrichment.go:240-245 | The check after the wait gives the answer `Passes` gives on every critical section of the limiter so far. |
| `ProfileEnricher.HostLimiter.AfterFetch` | internal/fetcher/source_profile_enrichment.go:248-255 | One more event of the limiter's run: only a block error on a Built In host sets `blocked`. |
| `ProfileEnricher.SlotsAreSpaced` | internal/fetcher/source_profile_enrichment.go:213-228 | Over any run and any clock readings, the slots i < j are at least (j - i) intervals apart. |
| `ProfileEnricher.SlotIsEarliest` | internal/fetcher/source_profile_enrichment.go:218-228 | A Built In host that is not blocked gets the earliest slot that is neither past nor within an interval of the last one; a blocked host gets none. |
| `ProfileEnricher.OthersAreFree` | internal/fetcher/source_profile_enrichment.go:214-216 | A host that is not Built In is never limited, whatever is reported about it. |
| `ProfileEnricher.BlockIsForever` | internal/fetcher/source_profile_enrichment.go:213-255 | Once blocked, no sequence of calls unblocks the limiter or reserves a slot. |
| `ProfileEnricher.PassesIffNoBlockBefore` | internal/fetcher/source_profile_enrichment.go:240-255 | For a Built In host a final check lets a call through exactly when no fetch before it reported a block. |
| `ProfileEnricher.Enricher.Begin` | internal/fetcher/source_profile_enrichment.go:88-106 | Entering the enricher is one enter event, leading exactly for a new canonical URL. |
| `ProfileEnricher.Enricher.LimiterFor` | internal/fetcher/source_profile_enrichment.go:196-211 | One limiter per host is made once and shared from then on. |
| `ProfileEnricher.Enricher.Finish` | internal/fetcher/source_profile_enrichment.go:110-118 | A leader stores its result for good. |
| `ProfileEnricher.FetchedAtMostOnce` | internal/fetcher/source_profile_enrichment.go:88-118 | Each canonical profile URL is fetched at most once in an enricher's life. |
| `DetailCache.Cache.Begin` | internal/fetcher/site_search_browser.go:478-496 | A stored result under the caller's own source name, a call to join or a new call to lead, as one event. |
| `DetailCache.Cache.AcquireToken` | internal/fetcher/site_search_browser.go:498-499 | A leader takes one of three tokens. |
| `DetailCache.Cache.ReleaseToken` | internal/fetcher/site_search_browser.go:500-501 | A leader gives its token back with the detail it fetched. |
| `DetailCache.Cache.CancelWait` | internal/fetcher/site_search_browser.go:502-503 | A leader whose context ends before it has a token goes on with the empty result. |
| `DetailCache.Cache.StoreResult` | internal/fetcher/site_search_browser.go:506-512 | A leader stores whatever it has, also the empty result, leaves the in-flight table and returns the detail under its source name. |
| `DetailCache.Cache.Join` | internal/fetcher/site_search_browser.go:486-489 | A joiner returns its call's result under its own source name and changes nothing else. |
| `DetailCache.Cache.Abandon` | internal/fetcher/site_search_browser.go:490-491 | A joiner whose own context ends returns the empty result and changes nothing else. |
| `DetailCache.InvOverRun` | internal/fetcher/site_search_browser.go:472-513 | The cache invariant holds in every state of every run of any number of callers. |
| `DetailCache.CacheSafety` | internal/fetcher/site_search_browser.go:472-513 | In every reachable state `entries` and `inFlight` share no key, each key has at most one leader, as many tokens are out as fetches run, at most three, and each caller that returned a result holds the stored one. |
| `DetailCache.LeadersNeverRepeat` | internal/fetcher/site_search_browser.go:484-510 | A key has at most one leader over the life of the cache. |
| `DetailCache.AnswersItsKey` | internal/fetcher/site_search_browser.go:476-512 | Whatever happens after a caller asked for a key, it waits for, returns or gives up on that key. |
| `DetailCache.AnswersDifferInSource` | internal/fetcher/site_search_browser.go:525-530 | Callers of one key are answered alike but for the source name, which on a usable result is each caller's own. |
| `DetailCache.StoredIsPermanent` | internal/fetcher/site_search_browser.go:506-508 | A stored detail never changes. |
| `DetailCache.CancelledLeaderPoisonsKey` | internal/fetcher/site_search_browser.go:502-508 | From the event that cancels a leader still waiting for a token, every caller that returns a result for its key returns the empty one, for the rest of the run. |
| `Bounded.InvOverRun` | internal/fetcher/job_fetcher.go:1049-1075 | Tokens equal workers, workers, leavers and finished ones are disjoint and are exactly the started indices, in every state of every interleaving. |
| `Bounded.NeverTooManyWorkers` | internal/fetcher/job_fetcher.go:1053-1073 | Never more than max(1, limit) workers at work, and no index started twice. |
| `Bounded.ReturnsWithAllWorkDone` | internal/fetcher/job_fetcher.go:1058-1075 | On return no worker is active and every token is back; the indices run are 0..k-1, each once, with k the total unless the context was cancelled. |
| `Bounded.AlwaysMoves` | internal/fetcher/job_fetcher.go:1049-1075 | It cannot deadlock: before it has returned some event other than a cancellation is enabled. |
| `Bounded.PagePool.Acquire` | internal/fetcher/company_health_browser.go:75-85 | An acquired slot was free and is held by nobody else; free plus held slots stay equal to the size until close. |
| `Bounded.PagePool.Release` | internal/fetcher/company_health_browser.go:87-92 | A held slot always finds room in the channel, so release never blocks. |
| `Bounded.PagePool.Close` | internal/fetcher/company_health_browser.go:94-105 | Close drains the free slots and leaves the held ones. |
| `Bounded.CandidateLimiter.TakeCount` | internal/fetcher/fetch_policy.go:87-110 | A call is given what is left of the source's limit and no more; the counter of every spelling of that source moves by exactly that, and no other counter moves. |
| `Bounded.CandidateLimiter.Exhausted` | internal/fetcher/fetch_policy.go:67-74 | A source is exhausted exactly when any positive request would be given nothing. |
| `Bounded.LimiterGivesTheMinimum` | internal/fetcher/fetch_policy.go:87-105 | However a source splits its candidates over calls, it is given the smaller of their sum and the limit in all. |
| `Jobs.AppendUniqueNonEmptyStrings` | internal/domain/job_metadata.go:262-278 | The loop with its seen map computes the compact list: trimmed, without blanks, first of each case-folded value. |
| `MetadataLaws.CompactIsCompact` | internal/domain/job_metadata.go:262-278 | Its result has trimmed, non-blank, case-distinct values and covers every non-blank input. |
| `MetadataLaws.CompactFixed` | internal/domain/job_metadata.go:280-282 | A compact list is a fixed point. |
| `MetadataLaws.MergeSplits` | internal/domain/job_metadata.go:185-226 | A metadata merge acts separately on the employee count and on everything else, and never stores a blank record. |
| `MetadataLaws.RestLaws` | internal/domain/job_metadata.go:185-226 | Everything but the employee count: merging again changes nothing, merging what the target started from changes nothing, and what is absorbed stays absorbed under later merges. |
| `MetadataLaws.SelfMergeNormalizes` | internal/domain/job_metadata.go:84-150 | Merging metadata into itself is normalizing it. |
| `MetadataLaws.MetadataRepeats` | internal/domain/job_metadata.go:185-226 | Folding a batch of metadata in a second time changes nothing exactly unless a stored count under 2 meets a first plausible count that no later one repeats. |
| `MetadataLaws.AddedMetadataRepeats` | internal/domain/job_metadata.go:185-226 | The same, exactly, for a job first added from the batch: without other metadata for it, exactly when its own is normalized. |
| `MetadataLaws.LateCountExample` | internal/domain/job_metadata.go:125-150 | A concrete pair on which the second, identical merge still changes the employee count. |
| `MergeLaws.MergeFills` | internal/domain/job_merge.go:36-56 | The identity merge fills a missing website, summary, industry, pay or description with a valid incoming one and leaves every other field, what counts as missing spelled out. |
| `MergeLaws.MergedSourceText` | internal/domain/job_metadata.go:189-202 | Each source text of merged metadata is the stored one, or where blank the incoming one, trimmed. |
| `MergeLaws.MergedCompanyText` | internal/domain/job_metadata.go:203-211 | Each company text likewise, ticker and exchange in upper case. |
| `MergeLaws.MergedLists` | internal/domain/job_metadata.go:198-206 | Each list is the stored one followed by the incoming one, compacted. |
| `MergeLaws.MergedNumbers` | internal/domain/job_metadata.go:212-226 | Founded year, public flag and employee count are the first given ones; a count under 2 is dropped. |
| `KeyedMerge.Survivor` | internal/domain/job_merge.go:19-33 | The job of a key after a merge is the first-to-last fold of MergeJobIdentityFields over all batch jobs with that key, starting from the stored job or the first new one. |
| `KeyedMerge.Untouched` | internal/domain/job_merge.go:19-33 | A position that is not the last one of its key is left as it was. |
| `KeyedMerge.MergeAllKeepsKeys` | internal/domain/job_merge.go:36-56 | Merging never alters a key nor moves a job. |
| `KeyedMerge.AppendedIsLast` | internal/domain/job_merge.go:29-31 | Every appended job with a key is the only one appended with it. |
| `KeyedMerge.FoldIsByField` | internal/domain/job_merge.go:36-56 | A fold of merges fills each field independently with the first valid offer. |
| `KeyedMerge.FoldRepeats` | internal/domain/job_merge.go:36-56 | Folding the same jobs into the result changes nothing exactly when their metadata settles. |
| `KeyedMerge.FoldRepeatsFromStart` | internal/domain/job_merge.go:36-56 | The same for a job that came from the batch itself. |
| `MergePlan.MergeJobs` | internal/domain/job_merge.go:12-34 | The loop over the index map computes the keyed merge, and the count is the number of appended jobs. |
| `MergePlan.PlanJobMerge` | internal/fetcher/fetch_review.go:92-116 | The plan appends the first job of each new key, opened; its duplicates are, in order, the batch jobs whose key was saved or came earlier in the batch. |
| `NameLaws.OneKeyIff` | internal/domain/job_merge.go:8-10 | For companies without a bar, two jobs have one key exactly when their trimmed companies and titles agree up to case, whatever their apply URLs. |
| `NameLaws.AddedIffNewNames` | internal/domain/job_merge.go:17-33 | A batch job whose company and title no saved and no earlier job has is added, opened, by both; any other is folded into a job with those names by MergeJobs and filed as a duplicate by the plan. |
| `NameLaws.AddedAreNewNames` | internal/domain/job_merge.go:19-32 | Both add exactly as many jobs as the batch has new names. |
| `MergePlan.MergeAndPlanAgree` | internal/fetcher/fetch_review.go:92-116 | MergeJobs and the plan add the same number of jobs and end with the same keys in the same places. |
| `MergePlan.PlanAddsFirst` | internal/fetcher/fetch_review.go:101-113 | Per key the plan adds the first batch job of a key not saved yet. |
| `MergePlan.TailIsPlanWithDuplicatesFolded` | internal/domain/job_merge.go:19-33 | The jobs MergeJobs adds are exactly its tail: from the end of the saved jobs on, every position holds the plan's added job with the rest of its key folded in. |
| `MergePlan.SavedJobsOnlyTakeIn` | internal/domain/job_merge.go:19-24 | A saved job changes only by taking in batch jobs of its own key, and only the last saved job of a key does. |
| `MergePlan.MergingAgainChangesNothingIff` | internal/domain/job_merge.go:12-34 | Merging the same batch again never adds a job, and changes nothing exactly when every key settles, a condition on stored and batch metadata alone. |
| `MergePlan.NormalizedBatchSettles` | internal/domain/job_metadata.go:84-150 | It always settles when all metadata involved is normalized. |
| `Dedupe.DedupeFetchedJobs` | internal/fetcher/fetched_job_dedupe.go:10-32 | The loop returns the keyed merge from nothing and the repeats in order. |
| `Dedupe.NothingIsLost` | internal/fetcher/fetched_job_dedupe.go:10-32 | Kept plus duplicates equals the input count. |
| `Dedupe.KeptInFetchOrder` | internal/fetcher/fetched_job_dedupe.go:10-32 | The kept jobs stand in the order of the first occurrences of their keys. |
| `Dedupe.SurvivorIsFold` | internal/fetcher/fetched_job_dedupe.go:23-29 | The survivor of a key is the first-to-last fold of all input jobs with it, and is alone in the output. |
| `Dedupe.EmptyKeysAllKept` | internal/fetcher/fetched_job_dedupe.go:18-22 | Jobs with an empty key are all kept, unmerged and in order. |
| `Dedupe.OutputIsDistinct` | internal/fetcher/fetched_job_dedupe.go:10-32 | Non-empty keys are pairwise different in the output. |
| `Dedupe.DedupeIsIdempotent` | internal/fetcher/fetched_job_dedupe.go:10-32 | A second dedupe changes nothing and finds no duplicate. |
| `Finalize.HydrateJobs` | internal/fetcher/candidate_cache.go:110-133 | Each job with a candidate in the store takes in the candidate, in place. |
| `FetchFates.HydrationFills` | internal/fetcher/candidate_cache.go:115-131 | When the lookup of a job's own turn gives a candidate, its missing fields are filled from it and the others stay; with a blank key, no store or no candidate the job is unchanged. |
| `Finalize.FilterJobsByCompanyTarget` | internal/fetcher/job_fetcher.go:663-677 | The two lists are the jobs on and off target, in order. |
| `Finalize.FilterCachedRejectedJobs` | internal/fetcher/candidate_cache.go:303-332 | Kept are the jobs without a stored rejection, failed lookups included; rejected ones carry the stored reason. |
| `Finalize.NewExistingJobIndex` | internal/fetcher/fetched_job_dedupe.go:38-48 | The index holds exactly the non-empty keys of the saved jobs. |
| `Finalize.SkipExistingFetchedJobs` | internal/fetcher/fetched_job_dedupe.go:62-76 | Skipped are exactly the jobs whose non-empty key is in the index. |
| `Finalize.Summary.AppendFetchNotice` | internal/fetcher/job_fetcher.go:1033-1047 | A notice is added trimmed, unless it is blank or there already. |
| `Finalize.Summary.CapAcceptedFetchedJobs` | internal/fetcher/fetch_policy.go:111-126 | A positive limit keeps a prefix, files the rest and leaves the limit notice, which is never there twice. |
| `Finalize.Summary.Finalize` | internal/fetcher/job_fetcher.go:552-605 | The whole tail returns and files exactly what the outcome function says, appended to the summary's earlier entries. |
| `Finalize.NothingFiledIsLost` | internal/fetcher/job_fetcher.go:556-603 | Each group of the summary keeps what it had and gains exactly its jobs; other groups are untouched. |
| `Finalize.EveryJobEndsOnce` | internal/fetcher/job_fetcher.go:552-605 | Every fetched position goes to exactly one of the returned list, company target, cached rejection, already saved, duplicate and accepted limit reached. |
| `Finalize.GroupsHoldTheirJobs` | internal/fetcher/job_fetcher.go:558-601 | Company target, already saved and duplicate hold the hydrated jobs of their positions, in fetch order. |
| `Finalize.CachedGroupIsNoted` | internal/fetcher/candidate_cache.go:322-327 | Each cached rejection is the hydrated job of its position, rejected by the lookup of its own turn, with the reason that lookup returned noted unless blank. |
| `FetchFates.OffTargetIff` | internal/fetcher/job_fetcher.go:663-677 | A job is filed under company target exactly when there is a target and the hydrated job misses it. |
| `FetchFates.CachedIff` | internal/fetcher/candidate_cache.go:303-332 | Of the jobs on target, looked up in fetch order, one is a cached rejection exactly when its own lookup says so. |
| `FetchFates.SavedIff` | internal/fetcher/fetched_job_dedupe.go:50-76 | Of the rest, one is filed as already saved exactly when its non-empty key is in the index. |
| `FetchFates.DuplicateIff` | internal/fetcher/fetched_job_dedupe.go:10-32 | Of the rest, one is a duplicate exactly when an earlier one of them has its non-empty key. |
| `FetchFates.ReturnedIff` | internal/fetcher/fetch_policy.go:111-126 | What is left is returned in fetch order, up to a positive limit; the jobs beyond it are omitted. |
| `FetchFates.ReturnedCarries` | internal/fetcher/job_fetcher.go:552-605 | What the hydrated job of a returned position has of website, summary, industry, pay and description, the returned job still has, whatever duplicates were folded in. |
| `Finalize.ReturnedInFetchOrder` | internal/fetcher/job_fetcher.go:592-605 | The returned and the omitted jobs follow the fetch order, each under the key of its first position. |
| `Finalize.ReturnedIsClean` | internal/fetcher/job_fetcher.go:580-603 | Returned jobs have pairwise different non-empty keys, none in the existing index, each the fold of all unsaved jobs with its key, and at most a positive limit of them. |
| `Finalize.DedupeBySelection` | internal/fetcher/fetched_job_dedupe.go:10-32 | Duplicates are the jobs whose key came before, the survivors keep the keys of the others. |
| `LlmBatches.JobFilterBatchesBySource` | internal/llm/job_filter.go:359-388 | The map and the loops compute the chunks of four of each source, sources by first appearance. |
| `LlmBatches.SplitJobFilterBatchByPromptSize` | internal/llm/job_filter.go:416-436 | The loop computes the greedy split. |
| `LlmBatches.SplitOversizedJobFilterBatches` | internal/llm/job_filter.go:390-414 | All groups are split, in order. |
| `LlmBatches.BatchesPartition` | internal/llm/job_filter.go:359-436 | For any size function the final batches partition the selected indexes. |
| `LlmBatches.OrderKeptWithinSource` | internal/llm/job_filter.go:359-436 | Within every source the batches list the indexes in their order. |
| `LlmBatches.SameLabelIff` | internal/llm/job_filter.go:359-388 | Two jobs are of one source exactly when their trimmed sources are equal, a blank one standing for `unknown`. |
| `LlmBatches.SourcesByFirstJob` | internal/llm/job_filter.go:359-388 | The sources stand in the order of their first selected jobs. |
| `LlmBatches.BatchesGoBySource` | internal/llm/job_filter.go:359-436 | Read one after the other, the final batches are the selected jobs source by source, in the order of the sources. |
| `LlmBatches.BatchesAreGood` | internal/llm/job_filter.go:359-436 | Each final batch has one to four jobs, all of one trimmed source, and with two or more a prompt of at most 18000 characters. |
| `LlmBatches.ChunksAreFull` | internal/llm/job_filter.go:379-385 | A source's group takes as few chunks as the size of four allows. |
| `LlmBatches.ShorterStart` | internal/llm/job_filter.go:421-431 | With a monotone size, starting from a shorter open batch costs no batch and saves at most one. |
| `LlmBatches.GreedyIsShortest` | internal/llm/job_filter.go:421-435 | With a monotone size the greedy split has no more batches than any contiguous split that fits. |
| `LlmBatches.SplitIsShortest` | internal/llm/job_filter.go:416-436 | So has the split as called, which itself fits. |
| `LlmFilter.SelectJobs` | internal/llm/job_filter.go:92-126 | The selected indexes are exactly the jobs that need an evaluation, increasing. |
| `LlmFilter.FilterRun.ApplyJobFilterResult` | internal/llm/job_filter.go:277-316 | One verdict updates the shared maps so that they still hold each job's last keeping verdict; a non-match clears nothing. |
| `LlmFilter.FilterRun.EvaluateJobFilterBatch` | internal/llm/job_filter.go:210-236 | A failed call applies nothing; a missing result stops after the earlier ones were applied. |
| `LlmFilter.FilterRun.EvaluateSelectedJobs` | internal/llm/job_filter.go:191-208 | All batches run, with single calls for batches of one and as fallback, so the maps reflect the whole verdict log. |
| `LlmFilter.FilterRun.CollectJobs` | internal/llm/job_filter.go:155-164 | The output is read off the two maps. |
| `LlmFilter.FilterJobsWithLlm` | internal/llm/job_filter.go:145-183 | The whole filter returns the output of the verdict log over the final batches of the selected jobs. |
| `LlmFilter.OrderAndContents` | internal/llm/job_filter.go:155-164 | Jobs keep their order, bypassed jobs are unchanged, and a survivor carries its last keeping verdict. |
| `LlmFilter.MissingIff` | internal/llm/job_filter.go:191-316 | Every selected job gets a verdict, and is missing exactly when every verdict applied to it was an explicit non-match, those of a partly applied batch included. |
| `LlmOutcomes.VerdictsApplied` | internal/llm/job_filter.go:199-272 | The verdicts applied to a job are those the answers give its place: the single answer for a lone job or a failed batch, the batch's result when it has one for every job, else the single answer, after the result if nothing before the job was missing. |
| `LlmOutcomes.BypassedIsUnchanged` | internal/llm/job_filter.go:154-158 | A job that was not selected comes out unchanged. |
| `LlmOutcomes.KeptCarriesItsAnswer` | internal/llm/job_filter.go:277-305 | A selected job that comes out carries its last keeping verdict: nothing of a missing result, and of an evaluation the trimmed compensation and remote text where not blank and the reasons if any; all other fields are the input job's. |
| `LlmOutcomes.ComesOutIff` | internal/llm/job_filter.go:145-163 | A selected job comes out exactly when some answer for its place in the batches keeps it. |
| `LlmFilter.LastKeepIsLast` | internal/llm/job_filter.go:277-316 | Only explicit non-matches follow the verdict a survivor carries. |
| `LlmFilter.AllFailuresKeepAll` | internal/llm/job_filter.go:238-253 | If every LLM call fails the output equals the input. |
| `LlmFilter.VerdictTouchesThreeFields` | internal/llm/job_filter.go:284-305 | A verdict changes only compensation, remote and reasons, and never blanks one that was filled. |
| `Lex.SortedUnique` | internal/fetcher/url_visit_registry.go:199-203 | A multiset of strings has one sorted listing. |
| `Lex.SortCorrect` | internal/fetcher/url_visit_registry.go:199-203 | Sorting gives a sorted permutation. |
| `QueryKey.UnescapeEscape` | internal/fetcher/url_visit_registry.go:208-210 | Unescaping an escaped byte string gives it back. |
| `QueryKey.SortedQueryString` | internal/fetcher/url_visit_registry.go:191-214 | Whatever order the map gives its keys, the loops print the sorted pairs. |
| `QueryKey.PrintRoundTrip` | internal/fetcher/url_visit_registry.go:191-214 | Parsing a printed list of parameters gives back that very list. |
| `QueryKey.QueryRoundTrip` | internal/fetcher/url_visit_registry.go:191-214 | Parsing the printed string gives back the same keys and value multisets. |
| `QueryKey.PrintedAlikeIff` | internal/fetcher/url_visit_registry.go:191-214 | Two queries print alike exactly when every key has the same multiset of values in both. |
| `QueryKey.CanonicalURLVisitKey` | internal/fetcher/url_visit_registry.go:173-189 | The loop that deletes tracking keys, the printers and the trimming of question marks compute the key string; a URL without a host has none. |
| `QueryKey.CanonicalAlikeIff` | internal/fetcher/url_visit_registry.go:181-187 | Two raw queries have one canonical form exactly when they carry the same parameters, order and tracking ones aside. |
| `QueryKey.PrintUrlIsInjective` | internal/fetcher/url_visit_registry.go:188-188 | A printed URL has only one reading as scheme, user, host, path and query. |
| `QueryKey.KeyIsPrintedUrl` | internal/fetcher/url_visit_registry.go:187-188 | The key is the printed canonical URL; only a bare question mark at the end is ever trimmed. |
| `QueryKey.KeysAlikeIff` | internal/fetcher/url_visit_registry.go:173-189 | Two URLs have the same key string exactly when they agree on user and path, on scheme and host up to case, and on the multiset of their parameters, tracking ones aside. |
| `QueryKey.KeyIsIdempotent` | internal/fetcher/url_visit_registry.go:173-189 | The key string has exactly one reading as a URL, and the key of that URL is the same string. |
| `QueryKey.ReorderingKeepsKey` | internal/fetcher/url_visit_registry.go:191-214 | Reordering parts of a query does not change the key string. |
| `QueryKey.TrackingKeepsKey` | internal/fetcher/url_visit_registry.go:182-186 | Adding a tracking parameter, first or last, does not change the key string. |
| `KeyLaws.TrackingIsIgnored` | internal/fetcher/url_visit_registry.go:182-186 | A parameter whose name starts with `utm_` or is one of the five click ids, in any letter case and with space around it, leaves the key string as it was wherever it is added. |
| `KeyLaws.OthersChangeTheKey` | internal/fetcher/url_visit_registry.go:182-186 | Any other parameter changes the key string wherever it is added. |
| `KeyLaws.SolidNameIsTrimmed` | internal/fetcher/url_visit_registry.go:217-217 | Trimming a parameter's name takes nothing that is not white space. |
| `KeyLaws.EscapedByte` | internal/fetcher/url_visit_registry.go:208-210 | A byte prints as itself if unreserved, a space as a plus sign, any other as two upper-case hex digits. |
| `KeyLaws.OddPieces` | internal/fetcher/url_visit_registry.go:181-181 | A name alone has the empty value, and a piece with a semicolon is no parameter. |
| `KeyLaws.KeyText` | internal/fetcher/url_visit_registry.go:178-188 | The key as text: scheme and host in lower case, user and path as they are, and the counting parameters, if any, in ascending order after a question mark. |
| `Salary.GroupThousands` | internal/fetcher/structured_job_posting.go:284-289 | The loop that inserts commas computes the grouping by threes from the right. |
| `Salary.GroupingRoundTrip` | internal/fetcher/structured_job_posting.go:284-294 | Deleting the commas of a formatted amount gives back its decimal digits. |
| `Salary.AtoiItoa` | internal/fetcher/job_filter.go:114-122 | Reading the printed digits gives back the number. |
| `Salary.ExtractAndCheckSalary` | internal/fetcher/job_filter.go:101-146 | The two scans accept exactly when no minimum is set, some salary in the text reaches it, or the text names no salary. |
| `Salary.PrintedRangePassesIff` | internal/fetcher/structured_job_posting.go:142-172 | For a USD posting whose rounded bounds have 5 or 6 digits the pay filter accepts the printed range exactly when no minimum is set or a bound reaches it. |
| `SalaryLaws.PlainNumberPasses` | internal/fetcher/job_filter.go:101-117 | A plain number is a salary exactly with five or six digits, and then passes when it reaches the minimum. |
| `SalaryLaws.ThousandsPass` | internal/fetcher/job_filter.go:119-132 | A number of two or three digits followed by k, in either case, stands for as many thousands. |
| `SalaryLaws.NoNumberPasses` | internal/fetcher/job_filter.go:134-145 | A text without digits leaves the job in. |
| `SalaryLaws.ExactAmountPassesIff` | internal/fetcher/structured_job_posting.go:142-172 | A printed exact dollar amount of five or six digits passes exactly when it reaches the minimum. |
| `SalaryLaws.WhatIsPrinted` | internal/fetcher/structured_job_posting.go:142-172 | A range needs two positive bounds; else a positive exact amount is printed, and else nothing. |
| `SalaryLaws.OtherCurrency` | internal/fetcher/structured_job_posting.go:142-172 | A range in another currency names it in upper case and has no sign. |
| `SalaryLaws.UnitNames` | internal/fetcher/structured_job_posting.go:273-282 | Year, yearly, annual and annually print as `/year`, hour and hourly as `/hour`, in any case, others not at all. |
| `SalaryLaws.CommasEveryThird` | internal/fetcher/structured_job_posting.go:284-294 | Commas stand before every third digit from the right and nowhere else. |
| `SalaryLaws.RoundIsNearest` | internal/fetcher/structured_job_posting.go:284-288 | The printed amount is the nearest whole one. |
| `FieldEvidence.CompanyHealth.ObserveFoundedYear` | internal/domain/company_health_facts.go:38-92 | One observation of a founded year: acceptance, conflict, notes and evidence as the outcome function says, the other field untouched. |
| `FieldEvidence.CompanyHealth.ObserveEmployeeCount` | internal/domain/company_health_facts.go:105-164 | The same for an employee count; an implausible one is only logged, with the reason the code gives it. |
| `FieldEvidence.CompanyHealth.FinalizeCompanyHealthAssessments` | internal/domain/company_health_facts.go:193-213 | Both fields are finalized. |
| `FieldEvidence.HeldIsLastAccepted` | internal/domain/company_health_facts.go:215-226 | Over any run the held value, confidence, source and URL are those of the last accepted candidate. |
| `FieldEvidence.LastAcceptedIsLast` | internal/domain/company_health_facts.go:38-164 | That candidate was accepted when it came and none after it was; if none ever was, none was plausible. |
| `FieldEvidence.RankNeverFalls` | internal/domain/company_health_facts.go:66-79 | The confidence rank never falls. |
| `FieldEvidence.RankReachesBest` | internal/domain/company_health_facts.go:66-79 | It ends at least as high as every plausible medium or high candidate. |
| `FieldEvidence.ConflictIff` | internal/domain/company_health_facts.go:58-73 | Status is conflict exactly when a conflicting candidate was rejected since the last acceptance, and otherwise is the one of the held confidence, or gap. |
| `FieldEvidence.AtMostFourAccepted` | internal/domain/company_health_facts.go:49-80 | At most four observations are ever accepted. |
| `FieldEvidence.FourAreReached` | internal/domain/company_health_facts.go:235-246 | Four do happen. |
| `FieldEvidence.EvidenceIsTheLog` | internal/domain/company_health_facts.go:112-123 | Every candidate leaves one evidence entry, in order and as it came but for the reason of an implausible count, marked accepted exactly when it was. |
| `FieldEvidence.FinalizedGapIff` | internal/domain/company_health_facts.go:193-213 | After finalization a field is a gap exactly when it holds no value, and then a note says why. |
| `EvidenceLaws.NextObservation` | internal/domain/company_health_facts.go:38-164 | The next candidate after any run: when it is taken over, in terms of the named confidences and the distance of the values, and what the field holds then and otherwise. |
| `EvidenceLaws.NextNotes` | internal/domain/company_health_facts.go:48-69 | What it notes: the reason of a first candidate, a conflict with both values, and a conflict that was won. |
| `EvidenceLaws.HighStays` | internal/domain/company_health_facts.go:66-79 | A value held with high confidence is never displaced, one held with medium only by a high one. |
| `HealthScore.CalculateEmploymentRisk` | internal/domain/company_health_risk.go:12-147 | The scoring loops compute the risk score, always in 0..100 with the level of its band. |
| `HealthScore.LayoffsRaiseTheLevel` | internal/domain/company_health_risk.go:19-80 | A layoff alone puts a company in the medium band or above. |
| `HealthScore.ScaleByCounts` | internal/domain/company_health_risk.go:44-62 | The scale multiplier by whole numbers: a fifth, a tenth of the workforce, a thousand, a hundred people, in that order. |
| `HealthScore.ScaleIsMonotoneIff` | internal/domain/company_health_risk.go:44-62 | A larger cut never weighs less, for every pair of cuts, exactly up to 10000 employees. |
| `HealthScore.EffectOfReview` | internal/domain/company_health_risk.go:157-197 | What one review adds to the score and to the risk, and whether it counts. |
| `HealthScore.SumReviews` | internal/domain/company_health_risk.go:156-198 | The loop adds the effects up. |
| `HealthScore.CompanyHealth.ApplyEmployerReviewHealthSignals` | internal/domain/company_health_risk.go:149-209 | Score and risk move by the sums; the risk is graded anew only when some review counts. |
| `HealthScore.ReviewsKeepGrade` | internal/domain/company_health_risk.go:202-205 | Reviews keep a graded risk graded, adding exactly their sum up to 100; a risk they create is graded exactly when some review counts. |
| `HealthScore.CompanyHealth.PenalizeAndClamp` | internal/domain/company_health.go:360-383 | The penalty, cap and clamp steps compute the final score. |
| `HealthScore.CompanyHealth.ScoreTail` | internal/domain/company_health.go:356-383 | From risk to clamp: the score ends in 0..100, at most 40 at risk 75 or more and at most 55 at risk 50 or more, with the risk graded. |
| `HealthScore.PenaltyIsMonotone` | internal/domain/company_health.go:360-383 | More risk never gives a better final score, and a better raw score never a worse one. |
| `HealthScore.RelatedArticleURLSet` | internal/health/llm.go:417-433 | The set holds exactly the normalized URLs of fetched articles that a review calls related. |
| `HealthScore.ModifierUsesOnlyAllowedSources` | internal/health/llm.go:435-446 | True exactly when there are sources and all are allowed. |
| `HealthScore.NovelModifierFactValid` | internal/health/llm.go:448-461 | True exactly for a fact of 20 characters or more that no story title contains. |
| `HealthScore.CompanyHealth.ApplyLLMScoreModifier` | internal/health/llm.go:293-371 | Score and retained modifier: a granted request moves the score to the clamped sum, the modifier kept is the real change and is cleared when there is none, and without related articles reviews and insight are cleared too. |
| `HealthScore.HonestIffCapped` | internal/health/llm.go:335-351 | A retained modifier has the requested sign and size at most 10 for every request exactly when the score respected its caps before. |
| `HealthScore.ScoreStaysCapped` | internal/health/llm.go:463-479 | Whatever the signals and whatever the LLM asks, the score ends within the caps of its risk level. |
| `HealthLaws.ReviewInFigures` | internal/domain/company_health_risk.go:149-209 | What rating, recommendation and CEO approval weigh one by one, in numbers; a review weighs their sum. |
| `HealthLaws.BetterReview` | internal/domain/company_health_risk.go:149-209 | A better figure never lowers the score and never raises the risk. |
| `HealthLaws.CountsIffItMoves` | internal/domain/company_health_risk.go:149-209 | A review counts exactly when it moves the score or the risk. |
| `HealthLaws.ReviewsAddUp` | internal/domain/company_health_risk.go:149-209 | Reviews add up. |
| `HealthLaws.BandsInNumbers` | internal/domain/company_health_risk.go:231-250 | The score is cut to 0..100 and the level is critical from 75, high from 50, medium from 25, else low. |
| `HealthLaws.PenaltyInNumbers` | internal/domain/company_health.go:356-383 | 30, 15, 5 or nothing off by band, then at most 40 or 55, and never out of 0..100. |
| `HealthLaws.AdjustmentInNumbers` | internal/health/llm.go:463-479 | The requested change, ten at most either way, as far as 0 and the cap of the risk allow. |
| `HealthLaws.GrantedIff` | internal/health/llm.go:293-371 | A request is granted exactly when it asks for a change, names only fetched articles reviewed as related, and brings a fact of twenty characters that no title contains. |
| `HealthLaws.StoryKeyIgnores` | internal/health/llm.go:488-490 | Two links are one story when they differ only in case, surrounding space and slashes at the end. |
| `HealthLaws.RecencyInDays` | internal/domain/company_health_risk.go:12-86 | A layoff weighs half as much again in its first 30 days and three tenths more in its first 90. |
| `HealthLaws.OneLayoff` | internal/domain/company_health_risk.go:12-86 | A single layoff adds 25, 37 when fresh, 32 within 90 days, 62 for a fifth of the people and 75 for both. |
| `HealthLaws.StockRiskIff` | internal/domain/company_health_risk.go:84-128 | The stock adds risk exactly when, over 200 prices, it stands 30% below its high or lost a fifth over the year. |
| `HealthLaws.DropInPercent` | internal/domain/company_health_risk.go:105-111 | A stock p percent below its high, p over 30, without a loss of a fifth over the year, adds half of p - 20. |
| `HealthLaws.LossInPercent` | internal/domain/company_health_risk.go:113-122 | A stock that lost q percent over the year, q over 20, and stands near its high adds half of q, at most 40. |
| `HealthLaws.LowerPriceHigherRisk` | internal/domain/company_health_risk.go:84-128 | A lower last price never lowers the stock risk. |
| `HealthLaws.LostEverything` | internal/domain/company_health_risk.go:84-128 | A stock that lost everything adds 40. |
| `HealthLaws.SignalsAddUp` | internal/domain/company_health_risk.go:12-147 | The four signals add up to at most 100: filings weigh 5 each and 20 at most, predominantly bad news weighs 10. |
| `IdentityPropagation.BestIsFirstHighest` | internal/fetcher/company_identity_cache.go:137-173 | Per company key and field the first job of the highest trusted rank is chosen, and none exactly when no job is trusted. |
| `IdentityPropagation.CollectRecords` | internal/fetcher/company_identity_cache.go:137-173 | The first pass records the choice for every key and field. |
| `IdentityPropagation.ApplySameCompanyIdentity` | internal/fetcher/company_identity_cache.go:298-319 | Three copies into gaps, counted. |
| `IdentityPropagation.PropagateSameCompanyIdentity` | internal/fetcher/company_identity_cache.go:129-188 | Both passes compute the propagated list and the number of copies. |
| `IdentityPropagation.NeverOverwritten` | internal/fetcher/company_identity_cache.go:303-317 | A valid website, a valid summary and a present non-provisional industry are never overwritten. |
| `IdentityPropagation.GapTakesChosen` | internal/fetcher/company_identity_cache.go:298-319 | A missing field takes the chosen value whenever there is one, with non-provisional evidence. |
| `IdentityPropagation.NoneLeftLacking` | internal/fetcher/company_identity_cache.go:175-188 | No job of a company with a trusted website or industry is left lacking it. |
| `IdentityPropagation.SummaryLeftLackingIff` | internal/fetcher/company_identity_cache.go:308-312 | A job keeps lacking a summary exactly when the chosen one is not valid for its own company name. |
| `IdentityPropagation.TrustNeedsASource` | internal/fetcher/company_identity_cache.go:190-219 | A run makes no company trusted that was not. |
| `IdentityPropagation.SecondRunCopiesNothing` | internal/fetcher/company_identity_cache.go:129-188 | A second run copies no website and no industry. |
| `IdentityLaws.SourceIsFirstLender` | internal/fetcher/company_identity_cache.go:129-219 | The source of a fact is the first job of the company with final high evidence for its own valid value, without one the first with medium evidence, and else none. |
| `IdentityLaws.GapReceives` | internal/fetcher/company_identity_cache.go:298-368 | A job that lacks the fact receives the source's text, with the source's URL and confidence, marked as a copy and not provisional; every other job keeps text and evidence. |
| `IdentityLaws.NoSourceNoChange` | internal/fetcher/company_identity_cache.go:165-178 | Without a source or a company key text and evidence stay. |
| `IdentityLaws.OnlyIdentityChanges` | internal/fetcher/company_identity_cache.go:298-319 | Propagation touches nothing but the three facts and their evidence. |
| `IdentityLaws.CopiedAreGaps` | internal/fetcher/company_identity_cache.go:298-319 | The number reported for a job is that of its gaps the company has a source for. |
| `Criteria.NormalizeStringSlice` | internal/domain/job_candidate.go:77-96 | The unique strictly increasing list of the normalized, non-blank entries. |
| `Criteria.NormalizeRoleFamilySlice` | internal/domain/job_candidate.go:98-118 | The same for role families, verbatim. |
| `Criteria.NormalizeCriteria` | internal/domain/job_candidate.go:55-67 | The normal form that is hashed. |
| `ReasonLaws.FormLists` | internal/domain/job_candidate.go:55-118 | What the form holds: seven lists of their normalized entries, strictly ascending, the role families sorted as they are, everything else unchanged. |
| `Criteria.NormalFormIsFixed` | internal/domain/job_candidate.go:55-96 | A normal form is its own normal form. |
| `Criteria.TidyIsFixed` | internal/domain/job_candidate.go:84-84 | Splitting into words and joining leaves a trimmed, single-spaced entry alone. |
| `Criteria.TitleScopeFilterReason` | internal/fetcher/job_filter.go:182-231 | The loops over excludes, requires and includes give the title reason. |
| `Criteria.FilterJobReason` | internal/fetcher/job_filter.go:148-180 | The first failing check of title, industry, pay and work setting. |
| `ReasonLaws.ReasonIs` | internal/fetcher/job_filter.go:148-231 | The six checks in their order, spelled out; the first that fails names the reason. |
| `ReasonLaws.MatchesWordIff` | internal/fetcher/job_filter.go:198-231 | A title word is matched exactly when the title has it, case aside, with no letter right before or after it. |
| `ReasonLaws.FieldsSplit` | internal/domain/job_candidate.go:84-84 | Entries are split into words at white space, wherever and however much of it there is. |
| `FilterLaws.ContainAlikeIff` | internal/fetcher/job_filter.go:190-195 | Two exclude lists act alike on every text exactly when every case-folded entry of each contains an entry of the other. |
| `FilterLaws.MatchAlikeIff` | internal/fetcher/job_filter.go:198-231 | Two title word lists match the same of the titles an exclude list lets through exactly when every such entry of each is itself matched by a word of the other. |
| `FilterLaws.PassAlikeIff` | internal/fetcher/job_filter.go:198-231 | As requires or includes checks two word lists are alike exactly when, besides, both or neither are empty: an empty list passes everything. |
| `FilterLaws.PassAlikeBelowIff` | internal/fetcher/job_filter.go:198-213 | The requires check matters only for titles that are not excluded: for two lists with words, agreeing there is matching each other's entries that are not excluded. |
| `FilterLaws.ChecksAlikeIff` | internal/fetcher/job_filter.go:148-231 | All four list checks of two criteria give the same answers on every text exactly when these conditions hold list by list. |
| `FilterLaws.SameTitleReasonsIff` | internal/fetcher/job_filter.go:182-231 | Two criteria give every title the same reason exactly when their excludes answer for each other, their requires checks agree on what is not excluded and their includes checks on what is left. |
| `FilterLaws.SameReasonsIff` | internal/fetcher/job_filter.go:148-180 | Criteria with the same pay and work settings give every job the same reason exactly when they give every title the same and, unless no title gets through, their industry excludes contain each other's entries. |
| `FilterLaws.ActsAsNormalIff` | internal/domain/job_candidate.go:83-87 | An entry acts as what normalization leaves of it, as an exclude or as a title word, exactly when it is trimmed, single-spaced and not blank. |
| `FilterLaws.BlankEntryActsIff` | internal/domain/job_candidate.go:84-87 | Normalization drops a blank entry; that changes nothing exactly when the entry contains, or as a title word is matched by, another one of its list. |
| `FilterLaws.EmptyExcludeRejectsAll` | internal/fetcher/job_filter.go:190-195 | Excluding the empty entry rejects every title. |
| `FilterLaws.SameFormSameReason` | internal/fetcher/job_filter.go:148-231 | Equal normal forms give every job the same reason, for criteria whose lists each act as their own normalized list. |
| `FilterLaws.TidySameFormSameReason` | internal/fetcher/job_filter.go:148-231 | In particular for criteria whose entries are trimmed, single-spaced and non-blank. |
| `FilterLaws.ExcludingActsAsFormIff` | internal/fetcher/job_filter.go:190-195 | Criteria that exclude one word give every job the reason their normal form gives exactly when the word is trimmed, single-spaced and not blank. |
| `FilterLaws.UntidyEntriesDiffer` | internal/fetcher/job_filter.go:190-195 | A concrete pair with one normal form and two reasons: a leading space. |
| `DecisionStore.FilterJobs` | internal/fetcher/job_fetcher.go:741-761 | What is kept are the jobs without a reason, and each group the jobs of its reason, each once and in order; there is a group for every reason given. |
| `DecisionStore.CandidateStore.RecordDeterministicDecisions` | internal/fetcher/candidate_cache.go:219-241 | Accepted decisions first, then the deterministic groups in any order; every stored rejection stays justified. |
| `DecisionStore.PutGroupsJustified` | internal/fetcher/candidate_cache.go:230-239 | Every stored deterministic rejection has a job with that key that the filter rejected for that reason under that normal form. |
| `DecisionStore.RejectionWins` | internal/fetcher/candidate_cache.go:225-240 | Last write wins: a key in a deterministic group ends rejected even when also accepted, one only accepted ends accepted, all others are as before. |
| `ReasonLaws.PassIsRecorded` | internal/fetcher/candidate_cache.go:219-241 | After a filtering pass and its recording, the candidate key of every rejected job is rejected under the normal form, and that of a kept job is too only if some job with it was rejected. |
| `DecisionStore.CachedRejectionIsSound` | internal/fetcher/candidate_cache.go:173-189 | In a store that has only seen criteria whose lists act as their normalized lists, a rejection found for such criteria is one the filter would repeat today for the job it was stored for. |
| `LlmConfig.NormalizeTasks` | internal/config/llm_normalize.go:69-80 | A task map gets canonical keys and trimmed non-blank models; of colliding ones either may stay. |
| `LlmConfig.FillProviders` | internal/config/llm_normalize.go:82-98 | Missing providers and blank fields take their defaults, in any order. |
| `LlmConfig.NormalizeProvider` | internal/config/llm_normalize.go:16-44 | Model, task map and auth of one provider. |
| `LlmConfig.AppConfig.NormalizeLLMConfig` | internal/config/llm_normalize.go:50-121 | The in-place rewrite has one of the results of the relation, for either copy. |
| `LlmConfig.SecondNormalizationChangesNothing` | internal/llm/llm_auth.go:64-135 | Normalizing again with either copy changes nothing, so each is idempotent and each is a no-op after the other. |
| `LlmConfig.LlmAfterConfigChangesNothing` | internal/llm/llm_auth.go:64-156 | With the tables in use the llm package's copy changes nothing after the config package's copy. |
| `LlmConfig.CopiesAgreeIff` | internal/config/llm_normalize.go:123-165 | On a raw configuration the copies agree exactly when it names an order and a foreign key, if the unguarded copy takes one over, normalizes to the provider's own auth. |
| `LlmConfig.ForeignKeyExample` | internal/llm/llm_auth.go:137-156 | With openai selected and gemini's variable at the top level, one copy ends with openai's key and the other with gemini's. |
| `LlmConfig.NormalizedShape` | internal/config/llm_normalize.go:100-120 | A normalized configuration mirrors its selected provider, has every default provider with a model, canonical task keys, and no feature when disabled. |
| `LlmConfig.ExplicitSettingsKept` | internal/config/llm_normalize.go:82-98 | No provider is dropped, and none loses an explicit model, endpoint or other setting, nor, unless selected, its auth and task map. |
| `ConfigLaws.OthersAreFilled` | internal/config/llm_normalize.go:82-98 | Every provider but the selected one is its raw entry with blank model, endpoint and unset auth taken from its default. |
| `ConfigLaws.SelectedModel` | internal/config/llm_normalize.go:100-120 | The selected provider's model is its own, else its default's, else the top-level one, else the table's; its endpoint is filled alike. |
| `ConfigLaws.SelectedAuth` | internal/config/llm_normalize.go:105-145 | The selected provider's auth is the top-level one exactly when that is given, allowed by the guard, and the provider's own is neither none nor an explicit other; normalized. |
| `ConfigLaws.TopLevelTaskReaches` | internal/config/llm_normalize.go:60-112 | A top-level task model reaches the selected provider under its canonical key, over the provider's own of that key. |
| `ConfigLaws.SwitchesAndOrder` | internal/config/llm_normalize.go:50-62 | Features stay as they were when enabled and are off otherwise; an order stays unless it is missing. |
| `ConfigLaws.SameTask` | internal/config/llm_normalize.go:167-171 | Case, surrounding space and the choice of dash, space or underscore do not matter in a task's name. |
| `LlmConfig.TaskKeyFixed` | internal/config/llm_normalize.go:167-187 | A task key is its own key. |
| `LlmConfig.TablesInUseAreGood` | internal/config/config.go:191-266 | The default tables meet what the proofs ask of them. |

## Left out

- HTTP, browser, RSS and JSON decoding, SQLite, files, logging and the user interface: results of foreign calls are
  arbitrary values, the candidate store is a last-write-wins map.
- The heuristic tables for websites, summaries, industries, work-setting text, company keys and blocked websites:
  uninterpreted functions.
- Text outside ASCII: case folding is ASCII, white space is modelled up to U+00FF, except
  around a query parameter's name, where it is the UTF-8 bytes of every white space character; query strings are byte
  strings.
- URL parsing: parsing gives scheme, user information, host, path and query, each as it is printed again;
  percent-encoding in the path and host is not modelled.
- FilterLaws.SameTitleReasonsIff: what the includes check must agree on is said of titles, not of the lists alone, since
  a title that gets that far also matches some required word.
- The key of fetched jobs: its URL heuristics are an uninterpreted function of company, title and apply URL.
- SHA-256 and JSON: the decision store is keyed by the normal form itself, and a nil list is the empty list.
- Prompt text: an uninterpreted size function.
- Clocks: readings are arbitrary integers in the host limiter and reals in the risk score; ages and decision times are
  not kept.
- Floating-point rounding: amounts and ratios are reals, truncated or rounded where the code converts to int.
- Shared pointers: Go jobs share metadata and identity records with the slices they were copied from; the model merges
  values, so a write through one job that shows in another is not captured.
- ProfileEnricher.Enricher.Join: the record a joiner applies, and a joiner's rewriting of it with its own LLM result,
  are not modelled; whether the entry succeeded and its page are.
- Risk factors, notes and flags of a health result: text for people, apart from the notes of observed fields.
- HealthScore.EffectOfReview: the rating text is read elsewhere; a missing or unreadable rating is 0, as in the code.
- Token usage and call counts of LLM runs.
- LLM-stage decisions: they live under another stage of the key and never meet the deterministic ones.
- Panics, scheduling fairness and anything below the granularity of a critical section or a channel operation.
- Provider defaults and alias names of tasks: tables, of which only what the proofs need is stated.
- Source catalog, role families, location tables, prompts, command line, benchmarks: tables and plain formatting.

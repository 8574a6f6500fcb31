# Verification of oba-validator

oba-validator compares the GTFS feeds of a transit agency with what a OneBusAway (OBA) server
says about them. It downloads the feeds (the static ones through an on-disk cache), runs a fixed
list of checks, and reports the results as text, as a JSON document and, optionally, as a row of
a database table. This project models that behaviour in Dafny and proves what the program is
trusted for.

| layer | modules |
|---|---|
| cache of static feeds: disk, crashes, a server that changes | `Json`, `MetaText`, `CacheSystem`, `CacheSafety`, `CacheTheorems`, `CacheFiles` |
| concurrent preparation of the feeds | `PrepareSystem`, `PrepareTheorems` |
| preparation over the cache, and the sources it leaves behind | `CacheSteady`, `CachedPrepare`, `CachedSafety`, `CachedProgress`, `CachedTheorems`, `Prepared` |
| strings, sampling, id matching, join indexes | `Strings`, `Redaction`, `Sampling`, `IdNorm`, `Gtfs` |
| checks, and a whole run | `Context`, `FeedChecks`, `ServerChecks`, `VehicleChecks`, `StopChecks`, `Run` |
| report, document, sink and command | `Results`, `Document`, `Sink`, `Cli` |

**The cache.** One key of the cache is a step system. Its events are server changes, clock ticks,
the steps of a call under the key's lock, every micro-step of `store`, an error of any of them,
and a process crash between any two. An event that is not enabled leaves the state alone, so a
statement about `Exec` is a statement about every run. `CacheFiles` is the cache as the program
has it, a class whose methods change files; each method that works on a key's files is proved to
be a run of the step system on that key, from the state at the call, and to leave everything else
as it is, so calls can follow one another. The main result is `AgreementIsExact`: the cached fetch agrees with the uncached one
in all reachable states if and only if the server is *faithful*, that is, a validator that matches
now was given out with a body that every version since has had. A server whose validators identify
bodies and are never reused is faithful. The other direction builds a run with a crash between the
two writes of `store` that serves an old body as the current one.

**Agreement has one exception, which is in the code's favour.** When the server answers 304, no
body is transferred. If the transfer of a body would have broken off at that moment, the plain GET
would have failed where the cached fetch returns the current body. `FaithfulServerAgrees` says
for which calls, `SparedTransfer` gives the run, and `ExactAgreementIsExact` says for which servers
no run has such a call: those whose validators never match.

**Preparation.** Any number of sources, four slots each, one goroutine per slot with a URL, and
any interleaving. A step that would block leaves the state unchanged, so "no deadlock" means that
in each state that has not returned some step changes something, and a measure that each such step
decreases bounds every schedule. `CachedPrepare` puts the two step systems together: a goroutine
that holds its URL's mutex takes the steps of its call, the clock runs for all, writes may fail,
and the servers stay as they are. There too every run can go on to its return (`EveryRunCanReturn`);
each step but the clock's that changes anything lowers a measure in two parts, steps left and then
bytes left to write; and so from some point on only the clock changes anything, in every infinite
schedule (`SchedulesSettle`).

**The schedule can matter, and the model says when.** It is not enough that each URL answers the
same throughout a run. If the cache starts with an entry that has no validators, holds an older
body, and is within its ttl, the first call may come early enough to be served that entry or so
late that it has to ask. `SameAnswersAreNotEnough` gives the runs: two data sources with one URL,
an entry of age 9 under a ttl of 10. `ScheduleIndependenceIsExact` is the general statement: the
context is the same after all schedules if and only if, for each slot, a fresh entry at the start
reads the same as what asking gives. For servers that are up, and a parser that tells bodies
apart, this means that no fresh entry holds another body than its server
(`OldFreshEntriesDecide`).

**Redaction.** Replacing a key by `***` removes it from all texts if and only if the key is
non-empty, neither starts nor ends with `*`, and does not contain `***` (`Removable`). For every
other key a text is constructed in which it survives. The lemmas about documents, error rows and
database errors hold for the removable keys, and need nothing else.

**Echoed connection strings.** `redactErr` also replaces the query form of the password, and its
comment promises this for the form in which a connection string holds it. That form is another
one: `url.UserPassword` writes a space as `%20` where `url.QueryEscape` writes `+`, and leaves six
delimiters that the other escapes. `EchoRemovedExactly` says for which passwords an echoed
connection string is freed of the password, and `EchoKept` gives two for which it is not.

**Checks.** Replies of the API are arbitrary functions of the number of the call and of its
arguments. Results are proved with their exact status, for every feed and every reply. The
meaning of an id match is the predicate `RefersTo`; `RunVerdict` puts it all together: the
document says FAIL exactly for one of the listed reasons.

**Where documents disagree with the code.** Design notes under `docs/superpowers` describe exit
code 1 for a failed verdict. The code returns 0 whenever a report was produced
(`validator/result.go:34-42`), and so does the model. `prepare` has an error result that no path
of its body uses; the command handles it all the same, and the model covers that path.

## Model

| member | source | states |
|---|---|---|
| MetaText.MetaRoundTrip | feeds/cache.go:61-65 | what `store` writes as meta, `load` parses back to the same entry, whatever url, ETag and Last-Modified hold |
| MetaText.EncodeParses | feeds/cache.go:92 | the meta file is JSON: an object with the four fields as strings |
| MetaText.TornMetaNeverParses | feeds/cache.go:50-64 | no proper prefix of a meta file is JSON at all, by the whole grammar, so `json.Unmarshal` refuses it whatever it is read into |
| MetaText.TornMetaNeverDecodes | feeds/cache.go:50-64 | hence a write that stopped anywhere is a miss |
| MetaText.DecodeNeedsClose | feeds/cache.go:62 | only `null`, and texts with a closing brace outside their string literals, are accepted |
| Json.ObjectNeedsClose | feeds/cache.go:62 | a text that starts with a brace is JSON only if some closing brace stands outside its strings, however deeply values are nested |
| Json.SkipSpaceMeans | feeds/cache.go:62 | between tokens exactly the four white space characters of JSON are skipped |
| Json.Utf8Means | feeds/cache.go:62 | an escaped code point becomes its shortest UTF-8 form |
| MetaText.EncodeInjective | feeds/cache.go:92 | different entries never have the same file |
| CacheSafety.NextKeeps | feeds/fetch.go:53-101 | every event, in every state, keeps: the body file is some response's whole body, the meta file is a prefix of the text of a response not newer than that, and each finished call returned what it should |
| CacheSafety.RunsKeepInv | feeds/cache.go:68-97 | the same after every run from an empty directory |
| CacheSafety.LoadIsReceived | feeds/cache.go:52-66 | a hit pairs the body of one 200 response with the meta of that response or of an earlier one |
| CacheSafety.ExchangeAgrees | feeds/fetch.go:82-84 | when a faithful server answers 304, the bytes on disk are its current body |
| CacheTheorems.HitIsComplete | feeds/cache.go:50-66 | in every reachable state a hit is a complete body with a meta that is not newer; and there is a hit exactly when both files exist and the meta file is complete |
| CacheTheorems.TtlHitIsRecent | feeds/cache.go:20-24 | a body served without a request is that of one receipt, under the meta of that receipt or an earlier one whose version had neither ETag nor Last-Modified and which came less than ttl before; so also after a crash between the two writes |
| CacheTheorems.HonestServerIsFaithful | feeds/fetch.go:68-75 | unique and never reused validators make a server faithful |
| CacheTheorems.FaithfulMeans | feeds/fetch.go:68-75 | which servers are faithful, over their headers: where an ETag given out is current again, or without one a date that the current date is not later than, no body between differs |
| CacheTheorems.FaithfulServerAgrees | feeds/fetch.go:53-101 | each call that asked the server returns what the plain GET would have returned then, except that a 304 spares it a broken transfer, and then it is the current body |
| CacheTheorems.AgreementIsExact | feeds/fetch.go:53-101 | for every history of versions: all reachable states agree with the uncached fetch if and only if the server is faithful |
| CacheTheorems.SparedTransfer | feeds/fetch.go:82-84 | the exception is reachable: a version that answers to a stored one, a transfer that would break off, and the stored body is returned where the plain GET fails |
| CacheTheorems.ExactAgreementIsExact | feeds/fetch.go:53-101 | for a faithful server: every call that asks, in every run, returns exactly what the plain GET would, if and only if no version answers to the validators of itself or of an earlier one |
| CacheTheorems.MismatchedFiles | feeds/cache.go:88-96 | the window of `store` is real: from an idle state a crash leaves the body of a later version beside the meta of an earlier one |
| CacheTheorems.UnfaithfulRun | feeds/cache.go:88-96 | for an unfaithful server some run returns a body that differs from the current one without an error |
| CacheFiles.Cache.LockFor | feeds/cache.go:42-45 | all callers of a key get the same mutex, created once, and other keys keep theirs |
| CacheFiles.Cache.LoadEntry | feeds/cache.go:52-66 | reading the two files is the step system's load |
| CacheFiles.Cache.WriteTemp | feeds/cache.go:71-87 | for each way to end: the temporary file's content, no other file touched, and the events this amounts to |
| CacheFiles.Cache.WriteBody | feeds/cache.go:71-91 | the body file holds the old bytes or all the new ones, and the new ones exactly when the rename happened |
| CacheFiles.Cache.WriteMetaFile | feeds/cache.go:92-96 | the meta file is untouched, a prefix, or whole, as the ending says |
| CacheFiles.Cache.Store | feeds/cache.go:68-97 | `store` is a run of its micro-steps: new body with old meta, or with a prefix of the new meta, never new meta with an old body; files of other keys stay |
| CacheFiles.Cache.FetchRealtime | feeds/fetch.go:37-50 | one request without validators, and the answer that the exchange allows |
| CacheFiles.Cache.KeepReply | feeds/fetch.go:88-100 | a failed write does not fail the fetch: the caller gets the bytes unless the process died; a run of the step system from the state at the call |
| CacheFiles.Cache.FetchLocked | feeds/fetch.go:62-101 | no request exactly when refresh is off and both files are there with a meta that decodes, has neither validator and is younger than ttl, and then the body file is the answer; otherwise exactly one request, with the stored validators as headers or none under refresh; a run of the step system from the state at the call |
| CacheFiles.Cache.FetchCached | feeds/fetch.go:57-101 | the same under the key's mutex, which is free again at the end; other keys' files and all other mutexes stay |
| CacheFiles.Cache.FetchStatic | feeds/fetch.go:52-101 | which requests are made, with which headers, and none exactly on a servable entry without refresh; without cache it is the plain fetch; with a faithful server the answer of a call that made a request is exactly the uncached answer, or the current body where a 304 spares a transfer that would have broken off; a run of the step system after which the next call can be made |
| PrepareSystem.Capacity | validator/validator.go:52-54 | the semaphore has the configured number of slots, or 4 where none or a negative number is configured |
| PrepareSystem.SlotOf | validator/validator.go:83-137 | source and feed are read back from the slot of a goroutine, so two feeds never share one |
| PrepareTheorems.NextKeeps | validator/validator.go:88-137 | each step of each goroutine keeps: semaphore and wait group count the right goroutines, each held mutex belongs to the one inside its section, values and errors are those of the goroutines that recorded them |
| PrepareTheorems.RunsKeepInv | validator/validator.go:79-139 | the same in every reachable state, any interleaving |
| PrepareTheorems.SectionsAreExclusive | feeds/cache.go:42-45 | at most `MaxConcurrency` goroutines between acquire and release, at most one in the cache section of a URL, at most one writing a source's errors |
| PrepareTheorems.SomeoneCanMove | validator/validator.go:90-133 | no deadlock: until `prepare` has returned, some step changes the state |
| PrepareTheorems.StepsUseUpMeasure | validator/validator.go:90-133 | every step that changes the state decreases a measure |
| PrepareTheorems.RunsAreShort | validator/validator.go:79-139 | the number of effective steps of any schedule is bounded by the initial measure |
| PrepareTheorems.StuckMeansDone | validator/validator.go:80-139 | where nothing can move, `prepare` has returned, the semaphore is empty, the wait count zero and no mutex held |
| PrepareTheorems.ReturnedIsIdle | validator/validator.go:139 | `Wait` returns only after every goroutine has finished and released everything |
| PrepareTheorems.CanFinish | validator/validator.go:139 | from every reachable state some continuation returns |
| PrepareTheorems.ExactlyOneOutcome | validator/validator.go:88-134 | after the return, for each of the four URLs of each source: a value or an error and never both if the URL is not blank, neither if it is |
| PrepareTheorems.OnlyStaticIsCached | validator/validator.go:94-137 | only a static feed with the cache on goes under the mutex of its own URL, and waits while that is held; every other fetch is done without |
| PrepareTheorems.OutcomesAreOwn | validator/validator.go:94-104 | whatever the fetches give, a goroutine's outcome is what its own fetch gave, not another's |
| PrepareTheorems.ScheduleIndependent | validator/validator.go:79-139 | when each slot's fetch gives the same whenever it ends, every schedule ends with the same values and errors |
| CacheSteady.CalmStepSince | feeds/fetch.go:62-100 | while a faithful server stays as it is, every call returns what asking would have given at the start, or the entry that was fresh at the start; the files hold that entry or the current body, whatever writes fail |
| CacheSteady.ExchangeSettles | feeds/fetch.go:67-92 | asking gives the same at any time of such a stretch |
| CachedSafety.NextKeeps | validator/validator.go:88-137 | each step of the joint system keeps: a cache is busy only under its mutex, its holder gets a new answer, and each slot's outcome is one of those two |
| CachedSafety.RunsProject | validator/validator.go:79-139 | a run of `prepare` over the cache is a run of `prepare`, so everything proved of those holds |
| CachedSafety.EnterFindsIdle | feeds/fetch.go:57-60 | whoever takes the mutex of a URL finds no call under way on its cache |
| CachedProgress.SomeoneCanStep | validator/validator.go:90-133 | no deadlock with the cache inside: until `prepare` has returned, some step of the main goroutine, of a goroutine or of a call changes the state |
| CachedProgress.OnlyClockMeansDone | validator/validator.go:80-139 | where nothing but the clock can change anything, `prepare` has returned, nothing is held and no call is under way |
| CachedProgress.StepsLower | feeds/fetch.go:62-100 | every step but the clock's that changes the state lowers the measure, each step inside `store` included |
| CachedProgress.TicksKeep | feeds/fetch.go:62-100 | the clock neither lowers nor raises it |
| CachedProgress.CanReturn | validator/validator.go:139 | from a state with the invariant, calls under way included, the returned events lead to the return, without the clock |
| CachedProgress.EveryRunCanReturn | validator/validator.go:139 | every run, of any configuration, goes on to its return |
| CachedProgress.SchedulesSettle | validator/validator.go:79-139 | in every infinite schedule only the clock changes anything from some step on |
| CachedProgress.FairSchedulesReturn | validator/validator.go:139 | an infinite schedule in which something always comes while `prepare` has not returned returns |
| CachedProgress.RunsKeepOutcome | validator/validator.go:94-104 | what a slot has got no later step takes back |
| CachedTheorems.ReturnedOutcome | validator/validator.go:94-104 | after the return each slot with a URL holds what its parser makes of the asked answer or of the entry fresh at the start, as a value or as an error |
| CachedTheorems.ScheduleIndependenceIsExact | validator/validator.go:79-139 | with faithful servers that answer the same throughout: all schedules leave the same context if and only if each fresh entry at the start reads the same as what asking gives |
| CachedTheorems.OldFreshEntriesDecide | feeds/cache.go:20-24 | for servers that are up and a parser that tells bodies apart: if and only if no fresh entry holds another body than its server |
| CachedTheorems.SameAnswersAreNotEnough | feeds/fetch.go:63-65 | a start, and two schedules after which the first source has the old feed and the new one |
| Prepared.Deliver | validator/validator.go:96-100 | a parsed feed goes to its field of its source, and the object shows what has been recorded |
| Prepared.Report | validator/context.go:28-36 | an error goes under its feed's name, other feeds' errors stay, and the object shows what has been recorded |
| Prepared.Prepare | validator/validator.go:79-140 | after any schedule the source objects are those that the recorded results describe, none disturbed by another's goroutines |
| Prepared.PreparedSources | validator/validator.go:83-140 | after any schedule each source carries its label and mapping, and for each of its four URLs: nothing if it is blank, otherwise the feed in its own field or an error under its own name, not both |
| Prepared.SourcesIgnoreSchedule | validator/validator.go:83-140 | where no fresh entry reads otherwise than what asking gives, any two schedules leave equal sources |
| Strings.LexTotal | validator/util.go:36 | any two keys are ordered or equal |
| Strings.LexTransitive | validator/util.go:36 | the order of keys is transitive |
| Strings.LexLessMeans | validator/util.go:36 | one text is below another exactly when, at the first place where they differ, it has ended or has the smaller character |
| Strings.DecimalRoundTrip | report/document.go:140 | decimal numerals are read back |
| Strings.SourceLabelInjective | report/document.go:140 | different data sources never get the same label |
| Strings.SourceLabelReads | report/document.go:140 | a label is `dataSource[`, the index in decimal, and `]` |
| Redaction.ReplacementRejoins | report/document.go:122 | the replacement is a cut at the leftmost matches that do not overlap, joined again with marks |
| Redaction.RedactionIsExact | report/document.go:115-123 | a key is gone from all redacted texts if and only if it is removable |
| Redaction.UnremovableSurvives | report/document.go:115-123 | for each key that is not removable, a text in which it survives |
| Redaction.StarFreeIsRemovable | cmd/oba-validator/main.go:45-54 | every non-empty key without `*` is removable |
| Redaction.NothingToReplace | validator/util.go:9-18 | a text without the key is not changed |
| Redaction.RedactionIdempotent | report/document.go:172 | for a removable key, the second redaction of a message in the document changes nothing |
| Redaction.IdempotenceIsExact | validator/util.go:9-18 | redacting twice is redacting once on all texts if and only if the key is blank, is `***` itself, or is removable |
| Redaction.OccurrenceTracesBack | cmd/oba-validator/main.go:47-54 | a replacement never creates an occurrence of a removable secret |
| Redaction.ScrubAddsNone | cmd/oba-validator/main.go:47-54 | a whole list of replacements never does either |
| Redaction.ScrubRemoves | cmd/oba-validator/main.go:47-54 | after scrubbing, no removable secret of the list is left, whatever the other entries are |
| Redaction.ScrubIdempotent | cmd/oba-validator/main.go:135-136 | scrubbing a text again with the same blank or removable secrets changes nothing |
| Redaction.Scrub | cmd/oba-validator/main.go:45-54 | the loop that skips empty secrets removes every removable one |
| Sampling.SortIsStable | validator/util.go:33-36 | the sort is sorted, a permutation, and keeps ties in feed order |
| Sampling.StableSortUnique | validator/util.go:33-36 | there is only one such sequence, so any stable sort gives it |
| Sampling.SortIgnoresOrder | validator/util.go:31-36 | with distinct keys the input's order does not matter |
| Sampling.SortStable | validator/util.go:36 | sorting the array in place gives that sequence |
| Sampling.SampleByID | validator/util.go:31-41 | the sort of a copy, cut at n, with nothing it was given changed; a negative n panics for every input |
| Sampling.SampleIsSmallest | validator/util.go:31-41 | min(n, length) elements of the input that head a stable sort of it; no key left out comes before a sampled one, by the first difference of the two |
| Sampling.SampleIgnoresOrder | validator/util.go:31-32 | with distinct keys every permutation of the feed gives the same sample |
| Sampling.SortStringsStrict | report/document.go:150 | sorting distinct strings gives them in strictly ascending order, by first differences, none lost |
| IdNorm.Underscore | validator/idnorm.go:9 | the first underscore, or none |
| IdNorm.RawIDSplits | validator/idnorm.go:5-13 | the raw id is what follows an underscore-free prefix, or the whole of an id without underscore |
| IdNorm.MatchMeaning | validator/idnorm.go:24-37 | an id matches exactly when it is the raw id, or that behind an underscore-free prefix, or that behind the agency's id |
| IdNorm.PrefixedMatches | validator/idnorm.go:15-37 | the id OBA builds always matches, underscores in the agency or not |
| IdNorm.RawIDInverts | validator/idnorm.go:5-22 | stripping undoes prefixing if and only if the agency (or, when it is blank, the raw id) has no underscore |
| IdNorm.FewMatches | validator/idnorm.go:24-37 | one API id matches at most three raw ids, at most two under an agency without underscore |
| Gtfs.AgencyOfTripIsLast | feeds/gtfs.go:52-57 | the scan is what the index should be: the agency of the last entry with this id whose links are there |
| Gtfs.AgencyOfRouteIsLast | feeds/gtfs.go:46-51 | the same for routes |
| Gtfs.IndexAgencies | feeds/gtfs.go:36-44 | each agency id once; the name is the last one given |
| Gtfs.IndexRoutes | feeds/gtfs.go:46-51 | the loop over routes builds the scan's answers for all ids |
| Gtfs.IndexTrips | feeds/gtfs.go:52-57 | the loop over trips builds the scan's answers for all ids |
| Gtfs.ParsedStaticFrom | feeds/gtfs.go:29-59 | ids ascending by first differences and exactly those of the feed; every lookup, found or not, agrees with a scan |
| FeedChecks.JoinFollowsFeed | validator/check_vehicles.go:152-169 | agency resolution over the indexes gives what the feed says: the mapped id where the source maps it, else the id itself |
| FeedChecks.FeedAgencyIsLast | validator/check_vehicles.go:158-168 | what the feed says: the agency of the trip's entry if some entry of its id is linked, else that of the route the trip names, if it names one |
| FeedChecks.GtfsSanity | validator/check_gtfs_sanity.go:12-40 | one result; it passes exactly when the feed arrived, was parsed and has agencies, routes, stops and trips |
| FeedChecks.SanityMeans | validator/check_gtfs_sanity.go:12-40 | the one result in full: its name, its source, and pass or fail by the feed's four lists |
| FeedChecks.FreshnessStatus | validator/check_freshness.go:27-49 | fails exactly on an error or an age above the limit, passes exactly within the limit on both sides |
| FeedChecks.Freshness | validator/check_freshness.go:15-51 | one result per realtime feed, in order, each by its own reading of the clock |
| FeedChecks.FreshnessMeans | validator/check_freshness.go:15-51 | the three results in full: which feed, under which name and error key, each with its exact status by age |
| ServerChecks.FailAndSkip | validator/check_endpoints.go:25-30 | a failure is followed by one skip for each step after it, in order |
| ServerChecks.StopChain | validator/check_endpoints.go:90-128 | the last three steps: as many successes as the replies allow, one call each |
| ServerChecks.RouteChain | validator/check_endpoints.go:66-88 | the same from the routes on |
| ServerChecks.Endpoints | validator/check_endpoints.go:15-129 | always seven results in step order: passes or warnings, one failure, then skips; one call per step up to the failure; the clock passes exactly within an hour on both sides, and the board warns exactly when it has no arrivals |
| ServerChecks.ChainCompletes | validator/check_endpoints.go:32-128 | no step fails exactly when each of the seven replies, asked for with the first id of the one before, is good |
| ServerChecks.ChainReads | validator/check_endpoints.go:15-30 | the name and the status of each of the seven results |
| ServerChecks.ClockMeans | validator/check_endpoints.go:39-47 | skew up to an hour passes, more warns |
| ServerChecks.AgencyUnion | validator/check_agencies.go:12-72 | one result per (source, agency) pair and one warning per served agency nobody expects, each exactly once, in whatever order the map yields them; without the agency list one failure |
| ServerChecks.UnionFailsExactly | validator/check_agencies.go:55-61 | with the list: it fails exactly when some source with a static feed has an agency that its mapping maps to an id not on the list; without it: always |
| ServerChecks.UnionJudges | validator/check_agencies.go:36-61 | the result of each pair: a mapped agency passes or fails by its mapped id, an unmapped one passes or warns by its own |
| ServerChecks.UnionSurplus | validator/check_agencies.go:64-70 | behind the pairs: a served id is warned about exactly when no source's agency has it as mapped or own id |
| ServerChecks.UnionIgnoresMapOrder | validator/check_agencies.go:64-70 | the number of results of each status does not depend on map order |
| VehicleChecks.ResolveVehicleAgency | validator/check_vehicles.go:152-169 | success implies a trip, so the later access to it is safe |
| VehicleChecks.VehicleAgencyMeans | validator/check_vehicles.go:152-169 | a vehicle is resolved exactly when it has a trip for which the static feed says an agency, and then to the mapped id, or to the agency's own where none is mapped |
| VehicleChecks.FindVehicle | validator/check_vehicles.go:71-77 | the loop with its early exit finds a match by id or non-empty label exactly when there is one |
| VehicleChecks.JudgeListing | validator/check_vehicles.go:56-86 | one call, and the status its reply deserves |
| VehicleChecks.JudgeTrip | validator/check_vehicles.go:88-110 | one call for the prefixed id; an empty trip id warns, another trip fails |
| VehicleChecks.JudgeNearby | validator/check_vehicles.go:112-147 | no call without a position, otherwise one |
| VehicleChecks.Judgement | validator/check_vehicles.go:42-148 | a sampled vehicle gives exactly three results if its agency is known, else exactly one |
| VehicleChecks.UnresolvedReads | validator/check_vehicles.go:48-54 | a vehicle without agency gives one warning and no call |
| VehicleChecks.VehicleReads | validator/check_vehicles.go:56-147 | the three results in full: names, the exact status of each by its reply, over the vehicle's own id, label and coordinates |
| VehicleChecks.VehicleSampling | validator/check_vehicles.go:15-150 | the whole check for arbitrary replies: results and number of calls; a negative sample size panics exactly when there is something to sample |
| VehicleChecks.VehicleSampleMeans | validator/check_vehicles.go:21-39 | the sample: from the vehicles with trip and position, or from all where there is none such; none left out has a smaller id |
| VehicleChecks.JudgementsCount | validator/check_vehicles.go:41-149 | between one and three results and at most three calls per sampled vehicle, never a skip |
| VehicleChecks.VehicleFailsExactly | validator/check_vehicles.go:15-110 | it fails exactly when the feed is missing, or for some sampled vehicle the API lists no vehicle of its agency or names a trip that is not the feed's |
| VehicleChecks.PassesAreBacked | validator/check_vehicles.go:71-80 | each pass is backed by a reply, within the check's own calls, that refers to the vehicle or its trip |
| VehicleChecks.TruthfulServerPasses | validator/check_vehicles.go:41-149 | a server that answers with the feed's prefixed ids passes throughout, whatever else it lists |
| VehicleChecks.ReportIgnoresFeedOrder | validator/check_vehicles.go:25-39 | with distinct ids, the order of vehicles in the feed changes no result and no call |
| StopChecks.QueryArrivals | validator/check_alerts.go:89-106 | a failed call or a null body gives a warning and no board, never an empty board |
| StopChecks.FindPredictedStop | validator/check_tripupdates.go:51-58 | the first stop with a prediction |
| StopChecks.PredictedStopMeans | validator/check_tripupdates.go:51-58 | that is the first update with a stop and a time; none exactly when there is no such update |
| StopChecks.TripUpdateSampling | validator/check_tripupdates.go:14-82 | the whole check for arbitrary replies: one result and one call per sampled trip; the same panic |
| StopChecks.UpdateSampleMeans | validator/check_tripupdates.go:24-36 | the sample: trips with a prediction, as many as asked for, and none left out with a smaller id |
| StopChecks.UpdateVerdicts | validator/check_tripupdates.go:60-79 | a sampled trip is one with a prediction; it warns exactly without a board, passes exactly when an arrival refers to it |
| StopChecks.UpdateReads | validator/check_tripupdates.go:39-79 | each result in full: its name, its source, and its status by the board of the prefixed stop |
| StopChecks.UpdateFailsExactly | validator/check_tripupdates.go:17-79 | it fails exactly when the feed is missing or a board arrived without the sampled trip |
| StopChecks.ScanSituations | validator/check_alerts.go:56-71 | the nested loops see every situation at arrivals and references, and a match exactly when there is one |
| StopChecks.AlertStopMeans | validator/check_alerts.go:30-37 | the alert's stop is its first non-empty one; none exactly when there is none |
| StopChecks.ServiceAlerts | validator/check_alerts.go:15-87 | the whole check for arbitrary replies: one result and one call per sampled alert; the same panic |
| StopChecks.AlertSampleMeans | validator/check_alerts.go:29-41 | the sample: alerts with a stop, as many as asked for, and none left out with a smaller id |
| StopChecks.AlertAgencyMeans | validator/check_alerts.go:43-50 | stops are prefixed with the smallest agency id of the feed, mapped if it is; with none without one |
| StopChecks.AlertVerdicts | validator/check_alerts.go:72-85 | a sampled alert fails exactly on a board without any situation, passes exactly when a shown situation refers to it |
| StopChecks.AlertReads | validator/check_alerts.go:52-85 | the name and the source of each result |
| StopChecks.AlertFailsExactly | validator/check_alerts.go:18-85 | the same for the whole check |
| Run.RunSource | validator/validator.go:29-33 | the five checks of one source, in order, their calls numbered on |
| Run.FeedsRead | validator/validator.go:29-33 | the first four results of a source: the sanity of its static feed, then each realtime feed by a clock reading of its own |
| Run.RunSources | validator/validator.go:29-33 | the sources in order, none mixed with another |
| Run.RunChecks | validator/validator.go:25-34 | a report is the server part followed by each source's part, with the exact number of calls |
| Run.Run | validator/validator.go:19-35 | for all feeds and replies a run makes at most 7 calls and 5n more per source, the agency list included, and with n >= 1 gives 7 to 4 + 5n results per source besides the server's |
| Run.SourceBudget | validator/validator.go:41-49 | with sample size n >= 1 a source gives between 7 and 4 + 5n results, all under its label, with at most 5n calls |
| Run.RunBudget | validator/validator.go:29-33 | over all sources: at most 5n calls each, between 7 and 4 + 5n results each |
| Run.RunGroups | report/document.go:137-153 | filtering a run's report into groups and joining the groups gives back the report in its order |
| Run.RunReportGroups | validator/validator.go:25-34 | every report of a run: one server group, one group per source, no leftovers, original order |
| Run.RunVerdict | report/document.go:208-211 | the document says FAIL exactly when a chain step failed, the agency list was missing, a mapped agency is not served, or some source has an insane or stale or missing feed, a contradicted vehicle, an absent trip or a silent alert |
| Results.Worst | validator/result.go:17-32 | despite the early exit: Fail exactly when the fail tally is positive, Warn exactly when only warnings are, never Skip |
| Results.WriteText | report/report.go:61-84 | one line per result with its status, group, name and message, and a summary that says FAIL exactly when some result failed; on a stream that fails, exactly the lines that fit |
| Results.CountsSumToLength | report/document.go:200-217 | the four tallies sum to the number of results |
| Results.CountPositive | validator/result.go:17-32 | a tally is positive exactly when some result has the status |
| Document.SplitCheck | report/document.go:106-113 | category and step put together with a slash are the name; the category has none |
| Document.BuildGroup | report/document.go:163-178 | each result once, in order: its status by name, its name cut at the first slash, its message redacted, its details; tallies that count the items of each status name |
| Document.ItemsTally | report/document.go:163-178 | the tallies of the results are those of the items' status names |
| Document.BySource | report/document.go:132-135 | the map holds each source's sub-list in report order |
| Document.SourceGroups | report/document.go:139-143 | after the deletes exactly the entries of unknown sources remain |
| Document.SortedKeys | report/document.go:146-150 | the leftover keys, for every order in which the map yields them |
| Document.BuildDocument | report/document.go:125-161 | the method with its map, deletes and arbitrary iteration order computes one fixed document |
| Document.DocumentShows | report/document.go:137-178 | each group of the document: id, title, and for each of its own results the item in literal terms, with tallies of exactly these items |
| Document.DocumentEchoes | report/document.go:125-130 | the echoed configuration: each URL redacted in its own field, index and mapping as configured |
| Document.GroupKeysCover | report/document.go:137-153 | every result has a group, no source has two, leftovers are strictly sorted |
| Document.RegroupedIsPermutation | report/document.go:132-153 | the groups joined are a permutation of the report, status by status |
| Document.DocumentConserves | report/document.go:125-161 | nothing is dropped, doubled or reordered within a group; ids after the first are distinct, leftovers ascending |
| Document.TalliesAddUp | report/document.go:200-207 | the groups' counts sum to the report's tallies |
| Document.SummaryIsTally | report/document.go:200-218 | counts sum to `Total`; the verdict is FAIL exactly when a result failed |
| Document.TextMatchesSummary | report/report.go:78-82 | the text report ends with the verdict, total, fails and warnings of the JSON summary |
| Document.DocumentHidesKey | report/document.go:125-130 | no message and no echoed URL contains a removable API key |
| Sink.TrimBlank | sink/sink.go:40-42 | an input counts as blank exactly when it is all white space |
| Sink.Validate | sink/sink.go:64-93 | accepts exactly the disabled and the complete configurations; otherwise which error, input by input |
| Sink.AcceptsExactly | sink/sink.go:64-93 | a row may be written exactly with a known status, four inputs with a character that is not white space, a non-blank address, and the one allowed table |
| Sink.RedactErr | sink/sink.go:118-142 | no message holds a removable password, nor the query form of any, nor the connection string's form of one that `EchoIsRemoved` admits |
| Sink.EscapesReadBack | sink/sink.go:135-138 | both escapes are percent encodings of the password: they read back to it |
| Sink.PlainCharacters | sink/dsn.go:31 | which characters stand for themselves in either of the two |
| Sink.EchoRemovedExactly | sink/sink.go:118-142 | an echoed connection string is always freed of the password if and only if the two escapes agree on it or it occurs in its own escaped form |
| Sink.EchoByCharacters | sink/dsn.go:31 | for a password with a character that connection strings never show: if and only if it has no space and none of six delimiters |
| Sink.EchoKept | sink/sink.go:118-123 | two passwords whose escaped form stays in an error that echoes the connection string |
| Sink.Database.InsertRow | sink/sink.go:106-111 | a known correlation id leaves all tables as they are; a new one gets its row, and every other row of every table stays |
| Sink.Database.Write | sink/sink.go:144-197 | rejected calls touch nothing; accepted ones change at most the allowed table, as far as the database got; errors hide the password as `RedactErr` does |
| Cli.Run | cmd/oba-validator/main.go:107-222 | exit code, standard output and tables of a run, on every path |
| Cli.Finish | cmd/oba-validator/main.go:172-221 | the path behind a report: output first, then at most one row |
| Cli.ExitMeans | cmd/oba-validator/main.go:172-221 | exit code 0 exactly when a report was produced, rendered and fully written; otherwise 2 |
| Cli.OneRowPerRun | cmd/oba-validator/main.go:150-221 | a run adds at most the row of its own correlation id, only with an active sink, and changes no other |
| Cli.FirstRowStays | sink/sink.go:106-111 | over any sequence of runs the first row of a correlation id is never changed |
| Cli.RowsAreFew | cmd/oba-validator/main.go:150-221 | never more rows than runs with an active sink |
| Cli.RowsAreGood | sink/sink.go:7-14 | every row ever stored is completed with no error, or an error with no report |
| Cli.NewRowMatchesOutput | cmd/oba-validator/main.go:172-221 | in JSON mode a new completed row is what standard output got, with exit code 0; an error row goes with exit code 2 |
| Cli.CallerFindsRow | cmd/oba-validator/main.go:161-221 | with a working database, exactly when the caller finds a row |
| Cli.SinkNeverMatters | sink/sink.go:150-153 | database faults and the sink's address change neither exit code nor output |
| Cli.ErrorRowHidesSecrets | cmd/oba-validator/main.go:151-169 | the error row of a failed validation holds no removable key or password |

## Left out

Assumptions of the cache model, as the code makes them:

- One process uses a cache directory; the locks of the code live in the process.
- A crash ends the process, not the machine: what was written stays written. The code does not sync files.
- Two URLs never share a key (SHA-256), the clock does not run backwards, and receiving a response and stamping it are one step.
- The server sends 304 only to a conditional request that matches its current validators and would otherwise get a 200 (sections 13.1.2, 13.1.3, 13.2.2 and 15.4.5 of RFC 9110). ETags are compared as whole texts, without the weak prefix or lists.
- MetaText.MetaRoundTrip: the time of an entry is a decimal number in quotes where the code writes RFC 3339; bytes that are not UTF-8, which the encoder would replace, stay as they are.
- JSON names that differ from a field's name in case only, and the limit on nesting.
- CacheFiles.Cache.FetchCached: waiting for the mutex is not part of this method, which asks for a free one; goroutines that wait, and the proof that the one that enters finds the cache idle, are in `PrepareSystem` and `CachedSafety`.
- In `CachedPrepare` taking the mutex and loading are one step: nobody else touches the files of a key meanwhile. The process does not crash while `prepare` runs.

Parts that the model treats as given:

- HTTP, the SDK's retries, zip, CSV and protobuf parsing: a fetch, a parse and an API call may give any result.
- `sort.SliceStable` and `sort.Strings` are an insertion sort; `StableSortUnique` shows that any other stable sort gives the same sequence.
- A negative sample size in `Run`: the sampling and the three checks that sample have its panic as `None`; whole runs take a natural number.
- Wording of messages and `Details` of checks, except the agency id of an unexpected agency; the advisory `agencyHint`. `Result.message` and `Result.details` are arbitrary in `Document`.
- Conversion of coordinates from 32 to 64 bits, and the span of a location query.
- Map iteration: any order, chosen freely at each step.
- `Counts` is a value that the loop replaces where the code updates fields of a struct.
- JSON encoding of the document, its schema, glyphs, flag parsing, `applyOverrides`, `config.Load`, and the search for secrets in a raw argument: loading gives any configuration or any error with any secrets.
- Sources of a run are values taken from the objects after `prepare`.
- PrepareTheorems.ScheduleIndependent: takes what each slot's fetch gives as fixed, which a steady server alone does not ensure for a cached URL; the statement about servers is `ScheduleIndependenceIsExact`.
- Connection strings, SQL text and connection handling: a write is refused, fails before or after it took effect, or works.
- White space beyond ASCII in `strings.TrimSpace`.
- A partly written text report: text output is one write of which a stream may take a prefix.

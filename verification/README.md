# LeadForge: a verified model of its protocols and algorithms

LeadForge discovers companies, crawls their sites, stores leads and runs e-mail campaigns from several worker
processes that share a database and Redis. This project models the parts where interleavings, crashes or arithmetic
decide correctness, and proves what they guarantee, in Dafny 4.11. `dafny verify dfyconfig.toml` checks everything.
Nothing was executed.

Each protocol is a transition system whose steps are the program's own atomic statements (one SQL statement, one
Redis script, one SMTP call, one callback section under the mutex); a run is any sequence of enabled steps, and a
crash may fall between any two. Single objects with mutable state are classes, loops are methods with loops, and both
are proved against functions that the lemmas then reason about.

| file | what it models |
|---|---|
| `CampaignModel`, `CampaignSafety`, `CampaignRetries`, `CampaignWitness` | overlapping batches: stale snapshots, claims, crashes, requeues, late failures; how often a Message-ID goes out |
| `CampaignRefusals` | contacts a batch does not mail, and deliveries that go wrong: what one batch leaves behind, and what holds in every run |
| `CampaignLifecycle` | which statement takes a contact from which status to which |
| `CampaignStops`, `CampaignReplies`, `CampaignUnsubscribes` | what a reply or an unsubscribe guarantees, exactly when a reply ends all mail, and when a finished contact comes back |
| `CampaignOrder`, `CampaignSpacing` | the order in which steps go out and the delays between them |
| `SendQuota`, `QuotaWitness` | the sliding hourly and daily limits under check-then-send races, and the runs that overshoot them |
| `DripSequence`, `CampaignDrive` | one contact walking its steps over any clock; the worker that does so when nobody gets in its way |
| `SearchLifecycle` | the status of one search row under runner, user, watchdog and redelivery |
| `SearchPipeline`, `SearchRaces`, `SearchVerdicts`, `SearchScreening` | concurrent candidates, thirteen counters, two idempotent inserts; what becomes of the losers of an insert; how each call ends and what each counter counts; what is let through |
| `SiteCrawl`, `CrawlPermits` | crawl bookkeeping under an adversarial scheduler; TTL permits with local fall-through |
| `PageMerge`, `EmailRanking`, `Phone` | folding pages, ranking addresses, canonical phone numbers |
| `NameSimilarity`, `Dedupe` | Jaccard similarity of names and the duplicate decision built on it |
| `RateLimit` | the fixed-window limiter |
| `Segments`, `SegmentFilter` | the SQL placeholder rewrite and the filter it serves |
| `Migrations` | schema migrations with crashes and a clock |
| `Counting`, `Text` | shared facts about counts in maps and about strings |

What came out differently from what one would expect, each with the exact condition:

- *Once plus once per requeue* is not a bound on the transmissions of a message: a late failure report overwrites a
  recorded delivery. The bound after R requeues is 1 + R(R + 1)/2, and for every R some run attains it
  (`TransmissionsAlwaysBounded`, `BoundIsAttained`); once plus once per requeue holds of all runs exactly when R ≤ 1
  (`LinearExactly`).
- A final contact status is not absorbing, even without requeues (`FinalIsLeft`): the advance at the end of an iteration
  is unconditional. It can be left exactly when a worker past the claim still has a step to advance to
  (`FinalIsLeftExactly`). A reply or an unsubscribe that reaches a waiting contact is nevertheless final (`StopIsFinal`).
- While a claim is pending a reply changes nothing, not even the replied mark (`StopIsDropped`). For a never-requeued
  contact it is the end of all mail exactly when it finds the contact waiting or every e-mail step recorded as sent
  (`ReplySilencesExactly`); otherwise some run mails the contact afterwards (`MailsAfterReply`). An unsubscribe also
  enters the suppression list, so after it only the first message not yet recorded as sent can go out
  (`UnsubscribeEndsWithStep`).
- Each sending limit holds of all runs without requeues exactly when there is at most one worker (`QuotaHoldsExactly`);
  W workers can send up to limit − 1 + W in a window, and for every limit they do in some run (`QuotaIsOvershot`).
- A cancelled search can end completed (`CancelCanBeLost`). Without a failing enqueue or a failing last read that happens
  exactly when a runner has read another status and not yet written its verdict (`CancelLostExactly`); the same holds of
  a failure (`FailureLostExactly`). The set of
  terminal statuses is never left.
- A search whose runner crashes is never completed: a redelivered task finds it claimed and leaves it
  (`CrashedSearchNeverCompletes`).
- The page cap is soft: it holds of every schedule exactly when at most one request is open at a time, and is otherwise
  overshot by the number of open requests less one (`CapHoldsExactly`, `CapIsOvershot`).
- `internal/crawler/manager.go` says "at most GlobalWorkers crawls run at once". With N slots and P processes, N + P·N
  run at once in some run if the permits are shared through Redis and P·N if they are not, where N is 40 when no number
  of workers is set. So the sentence holds exactly when there is no process, or a single one without Redis and with its
  number of workers set (`CrawlPermits.BoundIsAttained`, `GlobalCapExactly`).
- A number written as 8... without a prefix is not always the number it is with a leading 0
  (`BareSpellingAgreesExactly`).
- The comment above `FindDuplicate` gives name matches 80 or 55; the code also uses 75 and 50, and so does the model.
- For a shift by 1 to 10, the rewrite of placeholders from high to low is a renaming exactly of the texts in which every
  placeholder of two or more digits denotes 0 or 1 (`SweepRenamesExactly`). The filters of the program number
  fewer than ten placeholders, so every clause they build is such a text (`ClauseRenamed`).
- If the clock goes back, a down migration can take back the wrong file (`ClockBackTakesWrong`); with a prefix recorded it
  takes back the last one exactly when no other was recorded later (`DownTakesLastExactly`).

## Model

| member | source | states |
|---|---|---|
| CampaignSafety.ClaimIsExclusive | internal/outreach/outreach.go:104-110 | in every run, (1 if the row is claimable) + workers past the claim of a contact ≤ 1 + its requeues |
| CampaignSafety.ClaimStep | internal/outreach/outreach.go:236-295 | every statement, crash, reply and unsubscribe keeps that bound |
| CampaignSafety.TransmissionsBounded | internal/outreach/outreach.go:246-280 | a Message-ID whose recorded delivery was never overwritten went out at most 1 + requeues times |
| CampaignSafety.TransmittedOnce | internal/outreach/outreach.go:236-295 | a contact that was never requeued gets each Message-ID at most once, and no delivery of it is ever overwritten |
| CampaignRetries.TransmissionsAlwaysBounded | internal/outreach/outreach.go:236-295 | with no assumption on the run, a Message-ID goes out at most 1 + R(R + 1)/2 times after R requeues |
| CampaignRetries.LedgerStep | internal/outreach/outreach.go:246-295 | every step keeps: transmissions + open rights to send + what overwrites can still release ≤ 1 + R(R + 1)/2 |
| CampaignWitness.BoundIsAttained | internal/outreach/outreach.go:104-295 | for every R a run with R requeues sends one Message-ID 1 + R(R + 1)/2 times |
| CampaignWitness.LinearExactly | internal/outreach/outreach.go:268-294 | once plus once per requeue bounds all runs with R requeues if and only if R ≤ 1 |
| CampaignStops.StopIsFinal | internal/web/campaign_extra_handlers.go:84-87 | after a reply or an unsubscribe reaches a waiting, never requeued contact, no continuation sends it anything and its status stays final |
| CampaignReplies.ReplySilencesExactly | internal/web/inbox_handlers.go:219-222 | for a never requeued contact that waits or is being mailed, no continuation sends it anything after a reply if and only if the contact was waiting or all its e-mail steps were recorded as sent |
| CampaignReplies.MailsAfterReply | internal/web/inbox_handlers.go:219-222 | a reply that finds the contact claimed, with an e-mail step not recorded as sent, is followed by mail in some run |
| CampaignUnsubscribes.UnsubscribeEndsWithStep | internal/web/campaign_extra_handlers.go:84-87 | after an unsubscribe of a never requeued contact, whatever its status, no continuation whose suppression checks see the entry sends anything but the first message not yet recorded as sent |
| CampaignStops.StepKeepsDead | internal/outreach/outreach.go:174-297 | every step leaves a finished contact without holders finished, without holders and without a further transmission |
| CampaignStops.FinalIsLeftExactly | internal/outreach/outreach.go:281-295 | in any reachable state a final status can be left if and only if some worker past the claim can still advance to a further e-mail step |
| CampaignWitness.FinalIsLeft | internal/outreach/outreach.go:187-190 | a run without requeues in which a contact is unsubscribed and later active, so claimable, again |
| CampaignOrder.StepsGoOutInOrder | internal/outreach/outreach.go:200-295 | in every run the e-mail steps sent to a contact are the first n of its campaign, and all of them once it is completed |
| CampaignOrder.DoOrdered | internal/outreach/outreach.go:174-297 | every statement keeps that what is sent, snapshotted, claimed or recorded presupposes all earlier e-mail steps |
| CampaignSpacing.FollowUpsKeepTheirDistance | internal/outreach/outreach.go:281-294 | in every run, whenever a step goes out, a delivery of the e-mail step before it is recorded with a stamp at least the delay between the two ago |
| CampaignSpacing.DoKeepsWaits | internal/outreach/outreach.go:174-297 | every statement keeps that the dates of rows, snapshots and workers on their way presuppose that recorded delivery and the delay |
| SendQuota.QuotaHolds | internal/outreach/outreach.go:195-199 | without requeues, any sliding hour or day holds at most limit − 1 + W recorded deliveries, whatever the delay between check and stamp |
| SendQuota.WindowBound | internal/outreach/outreach.go:278-279 | the combinatorial core: if every stamp relied on a check that saw fewer than the limit, no window holds more than limit − 1 + W stamps |
| SendQuota.QueryCounts | internal/outreach/outreach.go:330-344 | the quota query counts at least every stamp made inside the window |
| SendQuota.RunIsMetered | internal/outreach/outreach.go:195-279 | in every run without requeues each delivery is stamped once and each worker past the checks holds a valid check |
| QuotaWitness.QuotaIsOvershot | internal/outreach/outreach.go:195-279 | for either period, every limit and every number W of workers, a run without requeues records limit − 1 + W deliveries in one window |
| QuotaWitness.QuotaHoldsExactly | internal/outreach/outreach.go:330-344 | a limit holds of every window of every run without requeues if and only if there is at most one worker |
| DripSequence.WalkToEmail | internal/outreach/outreach.go:200-210 | the walk stops at the first e-mail step at or after the current one, or at the end |
| DripSequence.NextStep | internal/outreach/outreach.go:281-290 | the next e-mail step, and the sum of the wait days strictly in between plus its own day offset |
| DripSequence.WaitsAddUp | internal/outreach/outreach.go:282-286 | waits add up over adjacent stretches, to the days of a single step and to nothing over none |
| DripSequence.ContactRun.Iterate | internal/outreach/outreach.go:200-295 | one successful iteration: mails the step found and moves the row on, in place |
| DripSequence.ContactRun.RunAll | internal/outreach/outreach.go:174-297 | iterations over a sequence of times |
| DripSequence.DripsInOrder | internal/outreach/outreach.go:200-296 | the mails are an initial part of the e-mail steps, none skipped, repeated or early; a completed contact got them all |
| DripSequence.CompletedExactly | internal/outreach/outreach.go:200-296 | a contact is completed exactly when as many iterations found it due as its campaign has e-mail steps (one if it has none), and never more do |
| CampaignDrive.UndisturbedIteration | internal/outreach/outreach.go:174-297 | the statements of an undisturbed worker, from requeue and query to the advance, have the effect of one sequential iteration on the row, the messages sent and their records |
| CampaignDrive.UndisturbedRun | internal/outreach/outreach.go:93-298 | over any clock they have the effect of the sequential walk: same row, each mail of the walk transmitted once and recorded |
| CampaignRefusals.RefusedBatch | internal/outreach/outreach.go:178-194 | a batch for a due contact that replied, is suppressed or has an unusable address ends with it replied, unsubscribed or bounced, in that order of precedence, and with nothing sent or recorded |
| CampaignRefusals.UndeliverableIsNeverMailed | internal/outreach/outreach.go:191-194 | in every run in which the query only finds the address of a contact unusable, nothing is sent to it and no worker is ever past its claim |
| CampaignRefusals.NotedReplyStopsStep | internal/outreach/outreach.go:211-222 | once a reply is noted, no continuation, whatever is requeued, sends a step that stops on replies unless a worker was past the check for it |
| CampaignRefusals.LateReplyIsSeen | internal/outreach/outreach.go:211-222 | a reply noted after the query is seen by the check before the claim, and the contact ends replied |
| CampaignRefusals.RejectedBatch | internal/outreach/outreach.go:257-276 | a hard bounce or a failed transmission leaves the contact bounced or failed, its message marked so, and the count of transmissions unchanged |
| CampaignRefusals.UnrecordedBatch | internal/outreach/outreach.go:246-255 | a batch whose message cannot be recorded fails the contact without sending |
| CampaignRefusals.LimitEndsBatch | internal/outreach/outreach.go:195-199 | a batch that meets a limit ends at once and changes nothing |
| CampaignLifecycle.StatusMovesExactly | internal/outreach/outreach.go:104-295 | for every action, contact and status: when the action takes the contact there; otherwise the status stays |
| CampaignLifecycle.RestChangesExactly | internal/outreach/outreach.go:104-295 | when the claim time, the step, the date and the replied mark of a contact change |
| CampaignLifecycle.BatchExactly | internal/outreach/outreach.go:138-151 | a batch is any list of up to a hundred different contacts of a campaign with steps that are pending or active and due |
| CampaignLifecycle.CountMovesExactly | internal/outreach/outreach.go:268-279 | a delivery counts towards the limits from its stamp on, and a late failure report takes it out again |
| SearchLifecycle.SearchRow.Claim | internal/search/search.go:236-248 | succeeds exactly on a queued row, which becomes running with one more attempt |
| SearchLifecycle.SearchRow.SetStatus | internal/web/search_handlers.go:246-270 | changes the status, and with it the time of the update, exactly when it is among the allowed ones |
| SearchLifecycle.ResumeThenWatchdog | internal/web/search_handlers.go:264-266 | the limit of a search resumed before any runner took it up counts from the resume |
| SearchLifecycle.SearchRow.Watchdog | cmd/worker/main.go:158-170 | fails exactly a running row whose last sign of life, the heartbeat or before the first one the update, is older than the configured minutes, fifteen by default |
| SearchLifecycle.SearchRow.ReadFinal | internal/search/run.go:108-127 | the verdict is cancelled or failed exactly when the row could be read and says so, and completed otherwise |
| SearchLifecycle.SearchRow.Finish | internal/search/search.go:317-323 | the verdict is written, after a last heartbeat, whatever the row says by then |
| SearchLifecycle.ClaimedAtMostOnce | internal/search/run.go:65-72 | over all runs, from a created or an imported search on, one claim, one runner in charge, one search.completed event |
| SearchLifecycle.TerminalForever | internal/web/search_handlers.go:246-270 | no continuation of any run leaves {completed, failed, cancelled} |
| SearchLifecycle.CrashedSearchNeverCompletes | internal/search/search.go:236-248 | a search whose runner crashes is never completed afterwards, however often its task is delivered again, and no completion event follows |
| SearchLifecycle.CancelLostExactly | internal/search/run.go:122-128 | a cancellation can be lost in an undisturbed run if and only if a runner has read another status and not yet written its verdict |
| SearchLifecycle.FailureLostExactly | internal/search/run.go:122-128 | so can a failure, be it the watchdog's or that of a task that could not be loaded, under the same condition |
| SearchLifecycle.EventMeansCleanRead | internal/search/run.go:122-128 | a search.completed event of an undisturbed search means that its runner's last read found the search neither cancelled nor failed |
| SearchLifecycle.CancelCanBeLost | internal/search/run.go:122-128 | a run in which a cancelled search ends completed |
| SearchLifecycle.StopsReachTheUnfinished | internal/web/search_handlers.go:246-270 | a cancellation reaches exactly the searches that are not over, and so does a failing load; the watchdog reaches those that run |
| SearchLifecycle.ResumeUndoesPause | internal/web/search_handlers.go:246-270 | pausing and resuming a running search changes nothing; a pause reaches only running searches, a resume only paused and queued ones |
| SearchPipeline.LedgerBalances | internal/search/run.go:225-260 | under any interleaving found = in flight + matched + failed + filtered + converted, and found ≤ seen ≤ limit |
| SearchPipeline.LedgerCloses | internal/search/run.go:489-549 | when all calls returned: found = seen, saved = created = companies inserted, dup = matched, hot ≤ qualified ≤ converted ≤ created |
| SearchPipeline.RowsStayUnique | internal/search/run.go:446-488 | one company per non-empty domain and one lead per company, however the calls race with each other and with the inserts of other jobs |
| SearchPipeline.OneCreatorPerDomain | internal/search/run.go:448-472 | of all calls that share a domain at most one creates the company |
| SearchRaces.LoserIsLinked | internal/search/run.go:456-471 | in every run a finished call whose insert met a company of its domain is linked to the one company of that domain if and only if its select did not fail, and has failed otherwise |
| SearchRaces.LoserFindsWinner | internal/search/run.go:456-468 | if a call of the job created that company, the loser is linked to exactly the row the winner inserted |
| SearchRaces.CountersCountCalls | internal/search/run.go:196-207 | in every reachable state matched, filtered and failed count exactly the calls that ended linked, filtered and failed |
| SearchVerdicts.LeadIsStored | internal/search/run.go:552-561 | in every run a call whose lead statement went through has a lead of its company from then on |
| SearchVerdicts.OutcomeIsAnswered | internal/search/run.go:212-353 | a finished call ended filtered, failed, linked or converted exactly when one of its answers calls for that |
| SearchVerdicts.CreatedCallEnds | internal/search/run.go:500-545 | a finished call that created its company failed if and only if its lead could not be read or was missing after a failed insert, is filtered if and only if the score was below a positive minimum, and converted otherwise |
| SearchVerdicts.EveryCounterCountsCalls | internal/search/run.go:196-207 | each of the thirteen counters counts exactly the calls that got to its step; hot and qualified those with a score of at least 90 and 50 |
| SearchScreening.EachKeyOnce | internal/search/run.go:218-231 | in every run exactly one of the calls for a key takes it up, whatever the interleaving, and none without a key |
| SearchScreening.StoredWasScreened | internal/search/run.go:336-352 | a call that stored a company or lost the race for one passed the filters after the crawl |
| SearchScreening.CrawledExactly | internal/search/run.go:236-334 | a finished call was counted as crawled exactly when its website was crawled, and has no raw row exactly when that could not be stored |
| SearchScreening.NoLeadFromNothing | internal/search/run.go:552-561 | a lead that was not there before comes from a lead statement that went through for its company, of this job or another |
| SearchPipeline.StepKeepsInv | internal/search/run.go:212-353 | every step of every call keeps all ledgers and uniqueness |
| SiteCrawl.Site.OnRequest | internal/crawler/colly.go:99-118 | a request is admitted exactly when the URL is unvisited, the cap is not reached and nothing stopped the crawl |
| SiteCrawl.Site.OnResponse | internal/crawler/colly.go:150-161 | a response leaves the visited set alone and waits to be counted |
| SiteCrawl.Site.OnError | internal/crawler/colly.go:163-184 | the first three retryable errors of a URL free it for the next round, any other is a failure |
| SiteCrawl.Site.EndRound | internal/crawler/colly.go:214-220 | hands out the waiting URLs and empties the set |
| SiteCrawl.CrawlIsAccounted | internal/crawler/colly.go:99-184 | visited and waiting are disjoint, visited = pages + failed + in flight, a URL is open once at most and admitted four times at most |
| SiteCrawl.RetriesAreUsedUp | internal/crawler/colly.go:163-184 | the four admissions are attained: a URL that keeps failing with a retryable error is let through four times and then is one failure |
| SiteCrawl.HaltedCrawlDrains | internal/crawler/colly.go:99-118 | once a crawl is halted no continuation lets a further request through |
| SiteCrawl.CrawlIsBounded | internal/crawler/colly.go:108-114 | pages + failed ≤ MaxPages − 1 + the number of simultaneous requests |
| SiteCrawl.CapIsOvershot | internal/crawler/colly.go:110-114 | for every cap and width a schedule fetches MaxPages − 1 + width pages |
| SiteCrawl.CapHoldsExactly | internal/crawler/colly.go:110-114 | every schedule stays within the cap if and only if at most one request is open at a time |
| CrawlPermits.Semaphore.Acquire | internal/redisx/redisx.go:28-53 | takes the first slot without a live permit, or none when all are taken; a disabled semaphore admits |
| CrawlPermits.Semaphore.Release | internal/redisx/redisx.go:37-61 | frees the slot when the live permit in it is the caller's, so that the caller owns nothing in it any more, and leaves everything else |
| CrawlPermits.PermitsAreExclusive | internal/redisx/redisx.go:28-41 | live permits sit in distinct slots below N with one owner each, and a crawl inside its TTL owns its slot |
| CrawlPermits.ReleaseFreesOnlyOwn | internal/redisx/redisx.go:37-41 | ending a crawl, however late, leaves every other crawl's permit in place |
| CrawlPermits.FinishFreesSlot | internal/redisx/redisx.go:37-61 | a crawl that ends inside its TTL and reaches the store frees its slot |
| CrawlPermits.UnreachedFinishKeepsSlot | internal/redisx/redisx.go:37-61 | one that cannot reach the store keeps its slot taken until the permit expires |
| CrawlPermits.LostAnswerTakesSlot | internal/redisx/redisx.go:28-53 | a permit whose answer is lost takes a slot that no crawl holds |
| CrawlPermits.LiveExactly | internal/redisx/redisx.go:28-61 | in runs without lost answers or unreachable releases a slot is live if and only if a crawl inside its TTL holds it |
| CrawlPermits.DeniesExactly | internal/redisx/redisx.go:28-53 | in those runs the store denies a permit if and only if as many such crawls run as there are permits |
| CrawlPermits.ConcurrencyBound | internal/crawler/manager.go:93-116 | P processes run at most P·N crawls, and N more with shared permits, besides those that outlived their permit |
| CrawlPermits.BoundIsAttained | internal/crawler/manager.go:93-116 | for every configuration with processes a run attains that number, with no crawl overdue |
| CrawlPermits.GlobalCapExactly | internal/crawler/manager.go:60-70 | at most as many crawls at once as global workers are set, in all runs without overdue crawls, if and only if there is no process, or one that does not use Redis and has a number set |
| PageMerge.Extracted.Merge | internal/crawler/parser.go:345-383 | merging in place, field by field, also with itself as argument |
| PageMerge.AppendUniqueLoop | internal/crawler/parser.go:417-424 | appends exactly when the value is new |
| PageMerge.MergeAssociates | internal/crawler/parser.go:345-383 | merging is associative |
| PageMerge.MergeAbsorbs | internal/crawler/parser.go:345-383 | merging a page again, or into itself, changes nothing |
| PageMerge.MergeAllPools | internal/crawler/colly.go:157-159 | a fact is in the result exactly when it is on some page |
| PageMerge.ArrivalOrderIsIrrelevant | internal/crawler/colly.go:150-161 | any arrival order gives the same e-mails, phones, WhatsApp numbers, technologies, networks and JavaScript flag |
| PageMerge.FirstPageDecides | internal/crawler/parser.go:346-348 | the company name, the description, the address and each network's link come from the first page that has one |
| EmailRanking.RankEmails | internal/crawler/parser.go:115-145 | the loop and the stable sort compute the specified list |
| EmailRanking.RankingIsExact | internal/crawler/parser.go:115-145 | exactly the cleaned addresses that are neither no-reply nor bad, once each, by rank, ties in order of first occurrence |
| EmailRanking.RankingIsIdempotent | internal/crawler/parser.go:115-145 | ranking again with the same domain changes nothing |
| EmailRanking.RanksInOrder | internal/crawler/parser.go:82-112 | a person, sales, contact and info on the company's domain, then support anywhere, other roles anywhere, then contact, info and a person elsewhere |
| EmailRanking.BetterComesFirst | internal/crawler/parser.go:82-145 | of two listed addresses the one with the better rank, told from its local part and its domain, stands first |
| EmailRanking.SpellingIsCleaned | internal/crawler/parser.go:123 | case and white space around an address do not matter, and it is listed without either |
| EmailRanking.UsableExactly | internal/crawler/parser.go:35-65 | which addresses are listed, told from local part and domain |
| EmailRanking.KeepFirst | internal/crawler/parser.go:120-138 | the seen-map loop keeps first occurrences of usable addresses |
| Phone.GroupDigits | internal/lead/normalize.go:157-167 | the loop computes the grouped text |
| Phone.GroupingIsReversible | internal/lead/normalize.go:157-167 | deleting the dashes restores the digits; every group has one to four |
| Phone.NormalizeIsCanonical | internal/lead/normalize.go:118-155 | normalising the canonical form keeps it, normalising the display form gives the same pair |
| Phone.SpellingsAgree | internal/lead/normalize.go:130-136 | 0d, 62d and +62 d give the same result for all digits d |
| Phone.BareSpellingAgreesExactly | internal/lead/normalize.go:130-141 | 8... and 08... give the same result exactly for nine to thirteen digits, or when both are rejected |
| Phone.AcceptedExactly | internal/lead/normalize.go:118-151 | accepted are exactly nine to fifteen digits, or ten to sixteen that begin with 62 |
| Phone.DigitsAreKept | internal/lead/normalize.go:118-155 | both forms keep the digits written, up to the 62 that replaces a leading 0 or goes before a leading 8, and foreign numbers their plus |
| Phone.NormalizedIsWellFormed | internal/lead/normalize.go:137-154 | an accepted number is +62 and 8 to 14 digits, or 9 to 15 digits of another country |
| NameSimilarity.LegalTokens | internal/lead/normalize.go:263-276 | the name's words without legal-entity words, once each, sorted |
| NameSimilarity.NameSimilarity | internal/lead/normalize.go:278-299 | the two loops compute the Jaccard index of the word sets |
| NameSimilarity.SpellingIsIgnored | internal/lead/normalize.go:253-276 | two names that carry the same words compare alike, whatever the order, repetition, case, legal-entity words and separators |
| NameSimilarity.SolidNameIsOneWord | internal/lead/normalize.go:261-276 | a name of ASCII letters and digits is one word, so digits and letters tell names apart |
| NameSimilarity.DistanceIsMetric | internal/lead/normalize.go:278-299 | 1 − similarity is a metric on names that have words |
| NameSimilarity.TiersCompose | internal/lead/dedupe.go:84-98 | two names at least 0.8 similar to a third are at least 0.6 similar to each other |
| Dedupe.FindDuplicate | internal/lead/dedupe.go:27-107 | returns the first of the strongest signals, nothing exactly when there is no signal, linked automatically from 60 on |
| Dedupe.AutoLinkExactly | internal/lead/dedupe.go:39-105 | the best signal links automatically if and only if there is an exact signal or a name at least 0.8 similar in the same city |
| Dedupe.ExactSignalWins | internal/lead/dedupe.go:39-63 | a hit by domain wins over everything, one by external id over all others, one by phone over e-mail and names |
| Dedupe.AddressWinsExactly | internal/lead/dedupe.go:64-99 | without those an address wins exactly unless it was found under an unlike name and a candidate has a close name in the same city |
| Dedupe.TiersAreOrdered | internal/lead/dedupe.go:84-98 | which names are signals, and that similarity and the same city only strengthen them |
| Dedupe.LinkedCompaniesAreNeighbours | internal/lead/dedupe.go:80-99 | two companies one name would be linked to are flagged as duplicates of each other |
| RateLimit.RateLimiter.Allow | internal/httpx/httpx.go:171-189 | updates the buckets in place; denies exactly at a full bucket that has not expired, and then changes nothing |
| RateLimit.DeniedExactly | internal/httpx/httpx.go:171-189 | over all histories, a request is denied if and only if it falls into a window its key opened and at least as many of the key's requests as the limit allows came before it in that window |
| RateLimit.AllowedIsBounded | internal/httpx/httpx.go:171-189 | in any closed window with c map clears a key is allowed at most (2 + c)·max(1, limit) − 1 requests |
| RateLimit.BoundIsTight | internal/httpx/httpx.go:171-189 | for every positive limit and window, every key and every number c of map clears a history attains the bound |
| Segments.ShiftPlaceholders | internal/web/intel_lists_handlers.go:154-161 | the loop from 9 down to 2 performs the passes; for shifts of 1 to 10 the result is the simultaneous renaming exactly for readable texts |
| Segments.SweepRaises | internal/web/intel_lists_handlers.go:154-161 | on every text, and for every shift up to ten, the sequential passes raise each placeholder's first digit once: none is hit twice |
| Segments.SweepRenamesExactly | internal/web/intel_lists_handlers.go:156-159 | the passes are the simultaneous renaming if and only if every placeholder of two or more digits denotes 0 or 1 |
| SegmentFilter.SegWhere | internal/web/intel_lists_handlers.go:27-55 | builds the text of the conditions with placeholders that number the collected arguments |
| SegmentFilter.ConditionsSpelled | internal/web/intel_lists_handlers.go:27-55 | the SQL text of every condition, with its placeholders |
| SegmentFilter.FilterIsConjunction | internal/web/intel_lists_handlers.go:27-55 | run with tenant and arguments the clause selects exactly the rows that meet every set criterion |
| SegmentFilter.ClauseRenamed | internal/web/intel_lists_handlers.go:154-161 | renaming the text of a clause gives the text of the clause with renumbered parameters |
| SegmentFilter.ClauseIsHarmlesslyRenumbered | internal/web/intel_lists_handlers.go:135-139 | renumbering and inserting as many parameters after the first cancel out |
| SegmentFilter.RefreshSegment | internal/web/intel_lists_handlers.go:135-147 | the rewritten clause with tenant, segment and arguments selects exactly the leads matching the filter |
| Migrations.MigrationFiles | internal/platform/migrate.go:93-107 | filters and sorts the directory |
| Migrations.ListIsSortedSelection | internal/platform/migrate.go:93-107 | exactly the files with the suffix and something before it, once each, in byte order |
| Migrations.LowerNameFirst | internal/platform/migrate.go:93-107 | of two up files the one with the lower character where the names first differ is run first |
| Migrations.DownFileOf | internal/platform/migrate.go:63-91 | the file that takes `stem.up.sql` back is `stem.down.sql` |
| Migrations.Database.Migrate | internal/platform/migrate.go:18-60 | the loop applies each pending file and its row together, and stops at the first failure |
| Migrations.Database.MigrateDown | internal/platform/migrate.go:63-91 | reverts the latest row by time and name, or leaves everything as it was |
| Migrations.UpExtends | internal/platform/migrate.go:30-59 | an up extends the applied prefix by the transactions that commit and succeeds exactly when that is the whole list |
| Migrations.DownRemovesLast | internal/platform/migrate.go:63-91 | a committed down removes precisely the last file and its schema change |
| Migrations.RecordedIsPrefix | internal/platform/migrate.go:18-91 | for the list computed from the directory, after any run of up, down and crash the records are a prefix of it with non-decreasing times, and the schema is its fold |
| Migrations.SuccessfulUpReachesAll | internal/platform/migrate.go:18-60 | a successful up, anywhere in a run, leaves the whole list applied |
| Migrations.SuccessfulDownTakesLast | internal/platform/migrate.go:63-91 | a successful down, anywhere in a run, takes back exactly the last file applied |
| Migrations.LatestIsLastExactly | internal/platform/migrate.go:66-67 | without a clock: with the first k files recorded the query finds the last if and only if none was recorded later |
| Migrations.DownTakesLastExactly | internal/platform/migrate.go:63-91 | so a committed down takes back the last file if and only if none was recorded later |
| Migrations.ClockBackTakesWrong | internal/platform/migrate.go:18-91 | up, clock back, up, down: in any directory with two up files the down takes back the first and leaves the second |

## Left out

Assumptions behind the results:

- Campaigns: database errors that the code ignores are modelled as success or as a crash at that statement; suppression hits, contact validity and mail server verdicts are arbitrary answers.
- Campaigns: one sending account with constant limits serves all campaigns of the model; manual inbox replies, which the code does not count against the limits either, do not occur.
- Campaigns: a snapshot is any at most hundred due rows; the order by creation time is not modelled, and steps are not edited during a run.
- Campaigns: a message has one row per campaign, step and contact; the Message-ID digest is taken as injective.
- TransmissionsBounded: needs that no late failure report overwrote the recorded delivery, because the claim without it is false of the code; TransmissionsAlwaysBounded needs nothing.
- QuotaHolds: stated for runs without requeues, where no recorded delivery is lost from the count.
- UndisturbedRun: stated for an account without limits and a contact nobody has replied for; UndisturbedIteration allows limits that are not reached.
- ReplySilencesExactly, UnsubscribeEndsWithStep: stated for contacts whose claim was never requeued before; after a requeue another worker can be past the claim when the stop arrives, which FinalIsLeftExactly covers.
- StopIsFinal: needs nothing of the suppression entry that an unsubscribe also writes.
- UnsubscribeEndsWithStep: the suppression list appears as the assumption that later checks of the contact hit; it fails when the insert failed, whose error the code ignores.
- CampaignModel, SearchPipeline, CrawlPermits and SiteCrawl schedules are relations over values, not classes shared by threads, because the subject is the interleaving of atomic statements; aliasing and in-place update are covered by the classes beside them.
- SearchLifecycle: the pause polling loop only delays the runner and is not modelled; in the protocol, heartbeats appear as the watchdog's freedom to fire. An import is a second start state.
- RowsStayUnique, OneCreatorPerDomain, LoserIsLinked: users do not edit a company's domain during a search (`internal/web/company_handlers.go`), which would take a created row out of its domain.
- SiteCrawl: URLs are already fragment-free and do not redirect; which links a page has is the scheduler's choice; backoff delays are not modelled.
- ConcurrencyBound: crawls that outlive their sixty-second permit are counted separately, and permit tokens are taken as distinct.
- NameSimilarity: similarity is a real number, so floating-point rounding at the thresholds is not captured; text is ASCII.
- EmailRanking and LegalTokens: the library sorts are modelled by insertion sorts with the same result.
- FindDuplicate: the database lookups and the name prefilter are inputs of the model.
- SegmentFilter: the text of a clause is tied to the conditions it spells; parsing by the database is not modelled, and ILIKE is an arbitrary relation.
- Migrations: every up file has a down file that undoes it, the list does not change during a run, and the database compares version names as bytes.

Not modelled:

- HTML extraction, robots.txt, browser fallback, domain cooldowns (nothing in the program calls the reset of the failure streak), politeness delays.
- Hashing, encryption, sessions, CSRF, the request guard, API keys, webhooks.
- Scoring rules, completeness and quality scores, opportunities, discovery sources.
- Domain and e-mail normalisation, cursor pagination, pages, forms and admin screens.

# Verified model of the adguard-logcentral aggregator

adguard-logcentral shows the query logs of several AdGuard Home instances as one log. It keeps no
state: everything a "load more" needs travels in a cursor that the browser holds, which records for
each instance the raw time of the last entry served (`o`) and whether the instance is exhausted (`d`).
This project models that protocol and the code around it, and proves what it promises.

**The pagination protocol.** `QueryLog` is one instance: its stored log, its answer to a `/querylog`
request (strictly `older_than`, substring search, status, `limit`) and the client that tags the answer.
`Merge` is the page merge, with the reference "repeatedly take the best head among the instances'
streams". `Glob` is the wildcard search and the coarse substring sent upstream in its place. `Cursors`,
`FanOut` and `Logs` are the cursor, the concurrent fan-out and `FetchLogs` itself. `Runs` turns page
loads into a state machine: a run is any sequence of page loads, each with any set of unreachable
instances, and of entries arriving at the head of any log. `Runs.EveryRunBalances` is the invariant of
all runs; `Safety` says what it means for what was served and lost; `Resume` says what a page does to what
one instance has left, whichever entries the page took. `WholeRun` and `Paginate` add fixed logs: no run
exceeds its page bound, and failure-free runs page through the one globally sorted log. `Separation` is
about cutting that log where text and merge order agree, and `Exact` says exactly when the pages are it.

**Timestamps.** The instances compare times as text, the merge as instants. `Timestamps` proves exactly
when the two agree; `Disagreement` gives a run that goes wrong where they do not, and `Ties` one that
loses an entry to a repeated timestamp. `Seeded` proves that logs seeded with timestamps of one width,
none repeated within an instance, meet everything pagination asks for.

**The rest.** `Ranking` and `Stats` merge the instances' statistics and relate the result to the
statistics of the concatenated logs. `Rules` is the block/unblock edit of an instance's custom rules and
the closed form of any history of edits. `Instances` is the scan of the indexed environment variables.
`Ordering` and `Text` hold stable sorting, filtering and byte-wise string order.

The pagination theorems name what they ask of an instance's stream, all of it visible before the run:
`Runs.TextDown` (newest first by raw text, no time empty) is how an instance stores its log, and all that
the page bound needs. `Runs.TimesAgree` says that text order agrees with the parsed instants, `Runs.Orderly`
is both (equal texts are allowed), and `Runs.Strict` that no timestamp repeats within the instance (other
instances may repeat it). The books of every run ask for `Runs.Pageable`: text order, and agreement unless
pages hold a single entry. What a failure-free run needs is a property of the sorted log and the page size
alone, `WholeRun.Separated`: at every multiple of the page size, instance by instance, everything before is
newer by text than everything after. Under `TextDown` that is necessary and sufficient
(`Exact.ServesLogIffSeparated`). Two special cases follow: where text and instants agree it means that no
page boundary cuts a tie (`WholeRun.Untied`, `Exact.ServesLogIffUntied`), and it holds at every page size if
and only if every stream is `Orderly` and `Strict` (`Exact.AlwaysServesLogIff`). Within a run clients, filter
and page size are fixed; page size is at least 1 (`internal/config/config.go:122-137`) and client names are
distinct, which `Instances.AcceptedIff` proves of every accepted configuration.

Where code and comments disagree the code is modelled. `internal/adguard/adguardtest/fake.go:107` says
that RFC3339Nano strings sort lexically by time; they do not ("00Z" sorts after "00.5Z"), see
`Timestamps.TextAgreesIff`. `README.md:262-263` says of a tie that straddles a page boundary that one
entry "may be dropped"; `Safety.TieLossExact` says which entries are (every one behind the cut with the
timestamp of the last entry consumed), and `Exact.ServesLogIffUntied` says when none is.

Verify with `dafny verify dfyconfig.toml`.

## Model

| member | source | states |
|---|---|---|
| QueryLog.HandleQueryLog | internal/adguard/adguardtest/fake.go:184-213 | the answer holds an entry exactly when it is in the log, its text is older than the cursor if one is sent, the folded search is empty or contained in its folded domain, client or client name, and its status fits ("blocked" and "filtered" ask for a blocked entry, "rewritten" for a rewritten one, "processed" for one not blocked, anything else for none of these); a positive limit cuts it to the first ones in log order |
| QueryLog.New | internal/adguard/adguardtest/fake.go:104-119 | a log is stored descending by its raw text, entries of equal text in the order given, none added or dropped |
| QueryLog.ClientQueryLog | internal/adguard/querylog.go:28-58 | a reachable instance's answer comes back entry by entry with its own raw time, client, domain and elapsed text, the client name if there is one, its time parsed (zero when it does not parse) and the instance's name; an unreachable one is a failure |
| QueryLog.FetchReadsStream | internal/adguard/adguardtest/fake.go:193-213 | a request for `limit` entries older than `o` reads the instance's filtered stream from just after `o`: filtering, cutting and tagging commute |
| QueryLog.StreamAppend | internal/adguard/adguardtest/fake.go:193-209 | entries that arrive at the head of a log arrive at the head of what it serves, and change nothing behind them |
| QueryLog.BeforeOrder | internal/aggregate/merge.go:38-57 | the merge comparator is a strict weak order |
| QueryLog.TiesShareInstance | internal/aggregate/merge.go:43-56 | only entries of one instance with one raw time can tie in the merge |
| Ordering.SortedByClass | internal/aggregate/merge.go:38 | stable sorting sorts, and keeps the elements of each tie class in order |
| Ordering.StableSortUnique | internal/aggregate/merge.go:38 | a sequence is the stable sort of another exactly when it is sorted and agrees with it class by class, so any stable sort gives this result |
| Ordering.KeepSort | internal/aggregate/logs.go:94-101 | filtering after a stable sort is sorting after the filter: hiding rows of a page does not disturb its order |
| Glob.MatchGlob | internal/aggregate/match.go:62-93 | prefix, suffix and greedy leftmost interior search return true exactly when some runs of characters in place of the stars make the pattern the value, both case-folded |
| Glob.SearchInterior | internal/aggregate/match.go:84-91 | the loop over the interior segments returns true exactly when they occur in order and without overlap in what remains between prefix and suffix |
| Glob.LeftmostSuffices | internal/aggregate/match.go:84-91 | the interior segments occur in order exactly when they do after taking the leftmost occurrence of the first: the greedy choice never misses a decomposition |
| Glob.MatchesIsWild | internal/aggregate/match.go:9-13 | the decomposition meaning of a pattern is the usual character-by-character wildcard meaning |
| Glob.FitsStrips | internal/aggregate/match.go:77-91 | whenever the interior and last segments fit with some fillers, the last segment is a suffix and the interior segments occur in order before it |
| Glob.StripsFits | internal/aggregate/match.go:77-91 | and conversely fillers exist whenever the suffix can be stripped and the interior occurs in order before it |
| Glob.AdguardSearchTerm | internal/aggregate/match.go:99-110 | the term sent upstream is the pattern itself without a star; otherwise a literal segment no other is longer than, and every segment before it is shorter |
| Glob.PrefilterSound | internal/aggregate/match.go:20-28 | whatever matches a pattern contains, case-folded, the term sent upstream, so the upstream search never drops a match; all-star patterns included |
| Glob.ComputeMatchesSearch | internal/aggregate/match.go:33-41 | an entry is shown exactly when the pattern is empty or matches its domain, its client or its client name if it has one |
| Glob.FilterEntries | internal/aggregate/match.go:46-57 | exactly the matching entries of the page are displayed, in order |
| Glob.StreamShows | internal/aggregate/match.go:33-57 | pre-filtering upstream and then matching locally displays, of an instance's log, exactly the entries whose status and pattern match |
| Merge.MergeDescending | internal/aggregate/merge.go:28-68 | the page is the first pageSize entries of the stable sort of all groups: as many as there are up to pageSize, all of them from the groups, newest first, equal instants by ascending instance name and those of one instance by ascending raw text, and no entry left out comes before one on the page in that order; consumed counts, for every instance, its entries on the page, and over distinct instances that cover the page the counts add up to its length |
| Merge.SharesAddUp | internal/aggregate/merge.go:63-67 | the instances' shares of a page make up the page |
| Merge.SortRefinesHeadMerge | internal/aggregate/merge.go:38-61 | for streams in merge order, sort-and-trim is repeatedly taking the best head among the instances, at most pageSize times |
| Merge.HeadMergeLength | internal/aggregate/merge.go:59-66 | a page has min(pageSize, available) entries, and what remains is what was available less the page |
| Merge.TakenIsPrefix | internal/aggregate/logs.go:139-146 | the entries taken from an instance followed by the ones left are its stream: consumed is a prefix |
| Merge.ConsumedIsPrefixIff | internal/aggregate/logs.go:143 | the entries taken from each instance are the first it returned, for every page size, exactly when what each returned is already in merge order |
| Merge.LimitPushdown | internal/aggregate/logs.go:66-75 | asking each instance for one page is enough: the first P entries of the merged first-P prefixes are the first P of the merged full streams, and take from each a prefix of its first P |
| Merge.HeadMergeSplit | internal/aggregate/merge.go:28-68 | taking a + b entries is taking a, and then b of what that leaves: pages compose |
| Merge.SortedFlattenUnordered | internal/aggregate/merge.go:33-57 | the merged order does not depend on the order in which the instances are listed |
| Cursors.DecodeCursor | internal/aggregate/cursor.go:45-64 | every encoded version-1 cursor decodes to itself with its map (an absent map is empty), and the result is none exactly for no cursor, an undecodable one, or one of another version |
| FanOut.StepConsistent | internal/aggregate/fanout.go:25-31 | every single action of any goroutine keeps the slots and the counter right, and leaves less work unless it was finished |
| FanOut.Step | internal/aggregate/fanout.go:26-30 | an action of one goroutine changes no other goroutine's slot or phase |
| FanOut.EveryInterleaving | internal/aggregate/fanout.go:21-34 | under every interleaving the wait counter is the number of unfinished goroutines, and once it is zero the slots hold, in client order, each client's name and outcome |
| FanOut.FanOut | internal/aggregate/fanout.go:21-34 | whichever goroutine moves next, the call ends and returns each client's name and outcome in client order |
| Logs.ComputeSelected | internal/aggregate/logs.go:18-28 | an instance is selected exactly when the filter's list is empty or has it at some place |
| Logs.Partition | internal/aggregate/logs.go:54-64 | the instances queried are, in client order, the selected ones the cursor does not mark exhausted |
| Logs.Collect | internal/aggregate/logs.go:77-90 | of the fan-out's results the answers are kept by instance and in order, and the failed instances are named, in order, and marked |
| Logs.BuildNextCursor | internal/aggregate/logs.go:112-149 | exactly the clients that the filter names, or all if it names none, get a next cursor: the previous one if exhausted or failed, else the raw time of the last entry consumed (the old one if none was), exhausted exactly when a short answer was consumed whole |
| Logs.AnyNotDone | internal/aggregate/logs.go:152-162 | there is a next page exactly when a selected instance is not exhausted |
| Logs.TakenWithinOffer | internal/aggregate/logs.go:140-143 | no instance has more entries on the page than it returned, so the index of the last consumed entry is in range |
| Logs.FetchLogs | internal/aggregate/logs.go:48-109 | a page load returns the page of the protocol's step; said of the page itself: every entry is of a client the filter names, or of any if it names none, in the written-out merge order; when there is a next page the cursor decodes to a map over exactly those clients, and otherwise there is none; the failures are exactly those of them that the previous cursor leaves open and that cannot be reached |
| Logs.PageErrors | internal/aggregate/logs.go:77-90 | the failures of a page, each instance's its own, stand in client order |
| Runs.CursorOnTheWire | internal/aggregate/logs.go:97-107 | the cursor a page hands out decodes to the state the run goes on from, none when there is no next page, and the page shows the merged entries that match |
| Runs.ResumesAt | internal/aggregate/logs.go:68 | a request with a balanced cursor returns exactly the entries still to be served |
| Runs.AccountsServe | internal/aggregate/logs.go:139-146 | serving the first k of what is left keeps the books balanced: the cursor is the k-th entry's raw time, and exactly the entries tied with it behind the cut are lost |
| Runs.AccountsIdle | internal/aggregate/logs.go:127-137 | a page on which an instance serves nothing leaves its books as they are |
| Runs.AccountsArrive | internal/adguard/adguardtest/fake.go:193-209 | new entries at the head of a log will be served if the instance has served nothing yet, and otherwise come too late without disturbing what is served |
| Runs.TakenPrefix | internal/aggregate/logs.go:143 | if an instance's answer is in merge order, what a page takes of it is its prefix |
| Runs.PageAccounts | internal/aggregate/logs.go:112-149 | whatever an instance returned and however much of it the page took, its advanced cursor balances the books again |
| Runs.StepBalances | internal/aggregate/logs.go:48-149 | any one page load or arrival keeps any one instance's books balanced |
| Runs.EveryRunBalances | internal/aggregate/logs.go:48-149 | after every run, with any failures on any pages and any arrivals in between, each instance's stream is what came too late, what was served and lost page by page, and what is left; its cursor is verbatim the last served raw time and separates the two ends; exhausted means nothing is left; and what came too late is a head of what was logged since the run began |
| Runs.StreamGrows | internal/adguard/adguardtest/fake.go:193-209 | after every run an instance's stream is what arrived since it began followed by what it was then |
| Safety.ServedIsSegment | internal/aggregate/logs.go:112-149 | after every run, what was served from an instance without equal timestamps is one contiguous, newest-first, duplicate-free stretch of its log, its cursor the raw time of the last of it; what lies before it is a head of what was logged since the run began, and nothing lies behind it once exhausted |
| Safety.FailureKeepsCursor | internal/aggregate/logs.go:127-137 | a failed or exhausted instance keeps its cursor and serves nothing |
| Resume.OlderIsTail | internal/adguard/adguardtest/fake.go:193-197 | over a stream that descends by text every older_than request reads a tail of it |
| Resume.AdvanceShrinks | internal/aggregate/logs.go:127-146 | whichever k entries of an instance's answer a page consumed, what remains under the next cursor is a tail of what remained, shorter by at least k |
| Resume.AdvanceExact | internal/aggregate/logs.go:127-146 | and it is exactly the rest if the page's cut is between different timestamps |
| Safety.StrictLosesNothing | README.md:258-265 | without equal timestamps within an instance no page loses an entry of it, whatever other instances hold |
| Safety.LostIffCutSplitsTie | README.md:260-263 | a page loses entries of an instance exactly when its cut falls between two entries with equal timestamps |
| Safety.TieLossExact | README.md:258-265 | over logs with repeated timestamps and any failures, an exhausted instance's stream is what was served and what was lost, each entry once; each page lost exactly the entries beyond its cut that carry the last consumed timestamp; and it was served whole exactly when no page cut a tie |
| Safety.NextRequestResumesIff | internal/adguard/adguardtest/fake.go:195-197 | asking for what is older than the k-th entry resumes right after it exactly when the next entry has another timestamp |
| Safety.NextRequestSkipsTies | internal/adguard/adguardtest/fake.go:195-197 | and otherwise skips exactly the entries tied with it |
| WholeRun.AnsweredIffNoErrors | internal/aggregate/logs.go:80-87 | a page's error list is empty exactly when every selected, unexhausted instance answered |
| WholeRun.LoadTakes | internal/aggregate/logs.go:112-149 | a page, with or without failures and whatever cursor the client sends, leaves of every instance at least as many entries fewer as it took, and none that was not left before |
| WholeRun.AnsweredPage | internal/aggregate/logs.go:92-98 | whatever the logs hold and whatever cursor the client sends, a page without a failure carries exactly min(page size, what is left) merged entries, and a page that is not full is the last |
| WholeRun.AnsweredPageIsBest | internal/aggregate/logs.go:92 | where text order agrees with the instants, or pages hold one entry, those entries are the best ones left |
| WholeRun.GlobalOrder | internal/aggregate/merge.go:43-56 | the sorted log that runs are measured against is newest first, equal instants by ascending instance name, those of one instance by ascending raw text |
| WholeRun.LoadShrinks | internal/aggregate/logs.go:112-149 | over all instances together it leaves at least its own entries fewer to be served |
| WholeRun.PageBound | internal/aggregate/logs.go:145 | over logs that descend by text, with N entries to serve, pages of P and F pages on which an instance failed, no run has more than floor(N/P) + 1 + F pages and one that long has ended; ties, crossed and unparsable times included |
| WholeRun.ServedAndLeft | internal/aggregate/logs.go:139-146 | without equal timestamps each instance's stream is at all times what was served from it followed by what is left, failures or not |
| Separation.SortedSides | internal/aggregate/logs.go:143 | where a sorted stream is cut so that one side is newer by text, its sides are the sorts of the first entries of the stored stream and of the rest |
| Separation.NextBlock | internal/aggregate/merge.go:33-61 | between two cuts of the sorted log where, instance by instance, text and merge order agree, the merge of the first page-size entries of what each stream has left is exactly the block between them |
| WholeRun.CutOfTies | internal/aggregate/merge.go:38-61 | if the entries of one instance are cut between equal timestamps, the two entries of the sorted log at the cut are themselves of that instance and timestamp |
| WholeRun.BlockStep | internal/aggregate/logs.go:48-109 | where every page boundary splits the log, one more failure-free page serves its next block and leaves of every instance exactly the rest of its stream |
| WholeRun.StrictIsUntied | README.md:260-265 | without repeated timestamps within an instance no page boundary cuts a tie, whatever timestamps instances share |
| WholeRun.PagesAreTheSortedLog | internal/aggregate/logs.go:48-149 | where every page boundary of the sorted log splits it, the merged pages of a failure-free run, put together, are its first pages-times-P entries, and all of it, each entry once, when there is no next page |
| Exact.ServesLogIffSeparated | internal/aggregate/logs.go:48-149 | the protocol's promise at any one page size, exactly: over logs that descend by text, a completed failure-free run serves the sorted log if and only if at every page boundary of that log, instance by instance, everything before is newer by text than everything after |
| Exact.BoundaryCursor | internal/aggregate/logs.go:139-146 | in every run over fixed logs, with any failures, the cursor held after any number of pages bounds what came before by its count and holds everything served later or still left |
| Exact.UntiedSeparates | README.md:260-263 | where text order agrees with the instants, page boundaries that cut no tie split the log |
| Exact.ServesLogIffUntied | README.md:258-265 | for every page size: where text order agrees with the instants, a completed failure-free run serves the sorted log if and only if no page boundary of that log falls between two entries of one instance with one timestamp |
| Exact.SinglesServeLogIff | internal/aggregate/logs.go:139-146 | with pages of one entry over logs that descend by text, a completed failure-free run serves the sorted log if and only if in every instance text order agrees with the instants and no timestamp repeats |
| Exact.QuietEnds | internal/aggregate/logs.go:145-161 | over logs that descend by text, asking often enough completes a failure-free run |
| Exact.AlwaysServesLogIff | internal/aggregate/logs.go:48-149 | over logs that descend by text, completed failure-free runs serve the sorted log at every page size if and only if in every selected instance text order agrees with the instants and no timestamp repeats |
| Ties.TieLosesEntry | README.md:260-263 | two entries of one instance with one timestamp and pages of one entry: the failure-free run ends without the second, although text and instants agree |
| WholeRun.OpenIffFullOffer | internal/aggregate/logs.go:145 | an instance of which a page serves all that was left stays open exactly when it returned a full page |
| Paginate.ExtraPageIff | internal/aggregate/logs.go:145 | whatever the logs hold, when exactly one page is left an extra empty page follows exactly when all of it comes from one instance |
| Paginate.PageCountExact | internal/aggregate/logs.go:145-161 | a failure-free run whose page boundaries split the log ends after exactly one page more than the full ones, or without that one when the full ones exhaust the log and the last of them mixes instances |
| Paginate.SearchIsExact | internal/aggregate/logs.go:66-101 | a completed failure-free run with any search, where every page boundary of the fetched log splits it, displays exactly the entries of all selected instances whose domain, client or client name match and whose status is asked for, once each, in merge order |
| Paginate.WantedLogHolds | internal/aggregate/match.go:33-41 | the log of matching entries holds an entry exactly if some client that the filter names, or any if it names none, logged one with the status asked for whose domain, client or client name matches, shown with its own fields, its parsed time and that client's name |
| Paginate.WantedLogInOrder | internal/aggregate/merge.go:43-56 | and it is in the written-out merge order |
| Paginate.PaginateAll | internal/aggregate/logs_test.go:59-78 | the client's loop, from no cursor until there is no next page, terminates, shows exactly the sorted log of matching entries, and takes exactly the predicted number of pages, where every page boundary of the fetched log splits it |
| Seeded.SeededLogsPaginate | internal/adguard/adguardtest/fake.go:104-119 | logs stored from entries whose timestamps have one width per instance and do not repeat within it meet the assumptions of the pagination theorems at every page size |
| Seeded.SeedAndPaginate | internal/aggregate/logs_test.go:84-118 | seeding instances with such entries and paging to the end shows exactly the sorted log of matching entries, in exactly the predicted number of pages |
| Paginate.ClientOrderIrrelevant | internal/aggregate/logs.go:54-108 | listing the clients in another order changes neither the entries of a page, nor whether there is a next one, nor its cursor |
| Timestamps.EarlierSeconds | internal/adguard/querylog.go:52-54 | the calendar counts seconds in the order of the fields year to second |
| Timestamps.YearStarts | internal/adguard/querylog.go:52-54 | the calendar behind that puts year y at 365 y days and a leap day for each earlier year divisible by 4 but not by 100 unless by 400 |
| Timestamps.TextAgreesIff | internal/adguard/adguardtest/fake.go:106-108 | for UTC timestamps as RFC3339Nano writes them (section 5.1 of RFC 3339), text order is chronological order exactly when neither is the other with more fractional digits; the comment claims it always |
| Timestamps.TextAgrees | internal/adguard/adguardtest/fake.go:195 | for valid timestamps, trailing zeros allowed, of which neither continues the other, in particular those of equal width, text order is chronological order |
| Timestamps.HalfSecondDisagrees | internal/adguard/adguardtest/fake.go:107 | any whole second sorts, as text, after the half second that follows it |
| Timestamps.StampTextInjective | internal/adguard/querylog.go:52-54 | different timestamps have different texts, so a text denotes one instant |
| Timestamps.StampsParse | internal/adguard/querylog.go:52-54 | there is a parser that reads every such timestamp as the instant it denotes |
| Timestamps.ZeroTimeIsYearOne | internal/adguard/querylog.go:52-54 | a time that does not parse is left at the beginning of year 1 |
| Timestamps.EqualWidthLogIsOrderly | internal/adguard/adguardtest/fake.go:104-108 | of a log stored newest first by text whose timestamps have one width, the stream for any search and status is in the order the pagination theorems need |
| Disagreement.CrossedMispages | internal/aggregate/logs.go:143 | where text order and instants cross, two failure-free pages read the logs to their end, serving one entry twice and another never |
| Disagreement.CrossedNotSeparated | internal/aggregate/logs.go:143 | the condition those logs fail is the one that decides: the end of their first page does not split the sorted log |
| Disagreement.NanoTextMispages | internal/adguard/adguardtest/fake.go:106-108 | a whole second next to the half second after it is enough for that |
| Ranking.TopN | internal/adguard/adguardtest/fake.go:362-385 | the list is the top n of the counts: min(n, keys) rows with their counts, by descending count and then ascending name, and no key left out comes before a row in that order |
| Ranking.TopUnique | internal/adguard/adguardtest/fake.go:371-376 | there is only one such list, whatever order the map is read in |
| Ranking.AddAllTotals | internal/aggregate/stats.go:120-128 | adding a list adds to each name what the list counts for it; first-seen order stays duplicate-free and equals the key set; every total is the sum of its per-instance parts; the sum of totals grows by the sum of counts |
| Ranking.TopMerger.Add | internal/aggregate/stats.go:120-128 | the merger's new state is the old one with the list's entries added one by one |
| Ranking.TopMerger.Top | internal/aggregate/stats.go:131-150 | the merged list is the top n of the totals, each row with its per-instance breakdown |
| Stats.DeriveStats | internal/adguard/adguardtest/fake.go:325-358 | the report counts the log's entries and the blocked ones, averages the elapsed times that parse, in seconds, and ranks queried domains, blocked domains and clients, each row counting the entries with that domain, the blocked ones with it, or the ones of that client |
| Stats.FetchStats | internal/aggregate/stats.go:56-90 | the merged statistics are those of the reports that arrived, in client order: sums, query-weighted average, the top of the summed counts with every row's per-instance breakdown; the blocked percentage times the queries is a hundred times the blocked ones, and zero without queries; there is one row for each client that answered, in client order, with its name, its report's two counts and average and its own percentage by the same equation; the named failures are exactly the clients that failed |
| Stats.RowBreakdown | internal/aggregate/stats.go:77-79 | every row of a merged list names the instances that reported it, each with its count, in client order |
| Stats.MergedCounts | internal/aggregate/stats.go:77-79 | a merged count never exceeds the true count over the concatenated logs, and equals it when no instance's list was truncated |
| Stats.MergedTopIsTopOfAll | internal/aggregate/stats.go:86-88 | without truncation the merged top list is the top list of the concatenated logs |
| Stats.MergedAverage | internal/aggregate/stats.go:75-83 | when every elapsed time parses, the query-weighted average is the average of the concatenated logs |
| Stats.MergeIsHomomorphic | internal/aggregate/stats.go:67-88 | merging the instances' statistics gives the statistics of one instance with all their logs: counts always, and the percentage that times all queries is a hundred times all blocked ones; average and top lists under those conditions, and no row above the true count otherwise |
| Rules.MergeDomainRule | internal/adguard/filtering.go:53-70 | the new list is the old one without the rules that, trimmed, are the domain's block rule (two bars, the domain, a caret) or its allow rule (the same after two at signs), order kept, and last the block rule to block or the allow rule to allow |
| Rules.TrimsBothEnds | internal/adguard/filtering.go:62 | trimming cuts white space off both ends, all of it and nothing else |
| Rules.RuleStore.SetDomainBlock | internal/adguard/filtering.go:36-42 | the stored list becomes the edited one when reading and writing succeed, and is unchanged otherwise |
| Rules.HistoryClosedForm | internal/adguard/filtering.go:48-70 | after any history of edits the list is the original without the rules of touched domains, order kept, followed by the last action of each touched domain in order of last touch |
| Rules.LastWriteWins | internal/adguard/filtering.go:48-52 | of two edits in a row to one domain the last wins, and repeating an edit changes nothing |
| Rules.OneRulePerDomain | internal/adguard/filtering.go:48-52 | after an edit exactly one rule concerns the domain, the wanted one, and the rules of every other domain, and unrelated ones, are as they were |
| Instances.Scan | internal/config/instances.go:26-89 | the scan returns every index with a valid URL as an instance, in index order, and every problem of every index, in order, a duplicate with the first index that took its name |
| Instances.LoadInstances | internal/config/instances.go:22-89 | of the variables with indices 1 to 64: each kind of problem is reported for exactly the indices that have it (trimmed URL set but user name, password or a valid URL missing; anything set without a URL; a URL after an index without one; a name that an earlier index has, with the first such index; nothing set at all); an instance is returned exactly if an index has a valid URL, with that index's name or else the URL's host, trimmed URL without its slashes at the end, user name and password; and without problems the i-th instance is that of index i |
| Instances.TrimsSlashes | internal/config/instances.go:78 | only slashes are cut off a URL's end, and all of them |
| Instances.TakenFirst | internal/config/instances.go:70-74 | a name is recorded as seen exactly when an earlier index with a valid URL has it, and with the first such index |
| Instances.ProblemFreeIff | internal/config/instances.go:39-74 | no index has a problem exactly when the settings are a contiguous run of whole instances with distinct names from index 1, and nothing beyond |
| Instances.AcceptedIff | internal/config/instances.go:22-89 | the error list is empty exactly when, for some k >= 1, indices 1..k describe whole instances with distinct names and nothing is set beyond; the result is then those k instances in index order, and their names are distinct |

## Left out

- HTTP, JSON and base64url: a cursor on the wire is what it decodes to, and encoding and decoding are inverse there; JSON round-trips only valid UTF-8.
- Contexts, timeouts and authentication between server and instances: on each page load any set of instances fails.
- `time.Parse`, `unicode.ToLower`, `strconv.ParseFloat` and `url.Parse` are parameters; folding works character by character, and the search theorems ask that it neither makes nor removes `*`.
- Strings are sequences of characters: byte lengths (which segment of a pattern is longest) and invalid UTF-8 are not modelled.
- Integers are unbounded; averages and percentages are real numbers, without rounding, NaN or infinities.
- Go's sort routines: modelled by what a stable sort promises, which leaves one result (`Ordering.StableSortUnique`).
- Wire fields nothing in the model reads (question type and class, reason, status text, rules, cached, upstream, oldest), and the text of errors.
- Log rotation or deletion and filter changes during a run; the page resets the cursor on a filter change (docs/DESIGN.md:39).
- Instances outside the selection are dropped from the next cursor, so a run keeps one filter.
- Global order under failures or arrivals: only the per-instance guarantees hold then.
- Concurrent edits of one rule list: the remote read-modify-write is not atomic, so histories are sequential, and the store's mutex has nothing to guard.
- Panics in fan-out goroutines; the outcome of a call depends only on the client within one page load.
- The network of one page load is fixed: an instance's log does not grow between the fan-out's calls.
- Logs.Partition: with `Logs.Collect`, `Logs.LoadPage`, `Merge.SortAndTrim`, `Merge.CountConsumed`, `Stats.CountLog`, `Stats.LoadStats`, `Stats.AddReport`, `Stats.AddSums`, `Stats.TopLists`, `Stats.Averages`, `Instances.ScanIndex` and `Glob.SearchInterior` it is a part of one function of the source, split off to keep proofs small.
- Decoding of the single-key maps in statistics answers, and the counts of replaced queries, which are always zero.
- The health fan-out, login and sessions, templates and scripts, scalar configuration, and the generator of sample entries.

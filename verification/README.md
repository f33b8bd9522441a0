# Miniflux: verified models of the refresh pipeline, the entry queries and their neighbours

This project models the parts of Miniflux whose correctness depends on more than one function: how a
batch of feeds is distributed, refreshed, classified, deduplicated and stored; how a chain of
builder calls becomes SQL text and how its rows become shared objects; and several small state
machines (cookie keys, the user cache, category replacement, migrations, Google Reader ids and
tags). `dafny verify dfyconfig.toml` checks all of it.

## How it is organised

| file | what it models |
|---|---|
| `Distribute.dfy`, `DistributeProperties.dfy` | the host round robin of `distributeJobs`, `makeItems` |
| `PoolProtocol.dfy`, `PoolRuns.dfy` | `Push`, `Run`, the workers, the wait group and cancellation as atomic steps; what a run did, told by its steps |
| `UserCache.dfy`, `CacheRuns.dfy` | the per-batch user cache behind a singleflight group; what its callers are told |
| `RefreshSpec.dfy`, `Refresh.dfy` | entry objects, `Append`, the cross-feed filter |
| `DedupOrder.dfy`, `DedupLeads.dfy` | which counts of the filter depend on the order of its entries |
| `BatchDedup.dfy`, `BatchCounts.dfy`, `BatchRows.dfy`, `BatchExamples.dfy` | a batch of refreshes over any schedule: its lists, counts and rows |
| `BatchTotals.dfy`, `ShownPairs.dfy`, `ScheduleFree.dfy` | exactly which batches count the same on every schedule |
| `EntryRows.dfy`, `UpsertSpec.dfy`, `StoreMeaning.dfy`, `EntryStore.dfy` | the entries table, the statements of a refresh, and what they leave of a parsed entry |
| `Interning.dfy` | the row loop of `GetEntries` and its shared feed, category and icon objects |
| `Numerals.dfy`, `SqlReading.dfy`, `QueryText.dfy`, `QueryPlan.dfy`, `QueryBuilder.dfy` | the query builder, its texts, and a reader of SQL conditions that does not know them |
| `Paging.dfy` | scrolling by `WithOffsetID`, Google Reader continuations |
| `SecureCookie.dfy`, `CookieRace.dfy` | cookie keys, one call at a time and shared by concurrent handlers |
| `EditTag.dfy`, `EditRequest.dfy` | tags of an edit-tag request, and the request from its query to the table |
| `Categories.dfy`, `Migrate.dfy`, `ItemID.dfy` | the smaller machines |

Code that changes state is a class or a method with a loop, proved against a specification function
or relation; what the source promises is proved about that specification. Concurrent code is a
state machine whose steps are the points where goroutines can interleave.

## Reading the results

Some promises hold only under a condition, which is stated exactly.

* `distributeJobs` hands out every job once if and only if no host has fewer jobs than the empty
  host (`NoJobLost`): `""` is both the mark for an emptied host and a possible host.
* A refresh commits if and only if no two of its entries share a hash the feed does not have yet
  (`CommitsIff`). Repeating it, unforced, never creates, and updates nothing if and only if the last
  entry written over each stored row carried the newest date the feed has for that hash
  (`RepeatIsNoOpIff`); distinct hashes meet that, and `RepeatedHashUpdatesAgain` is a feed that does not.
* For fixed entries `created` never depends on the order in which they reach the filter. The number
  of filtered duplicates is the same for every order if and only if, for every user and hash, all
  feeds that bring it unread bring it equally often (`DedupsOrderFreeIff`); the number left unread if
  and only if they do when imported copies are not counted (`LeftOrderFreeIff`).
* Which entries reach the filter unread depends on the schedule, because a refresh reads what others
  have committed. Take a batch of different feeds, unforced, with unread, not imported entries and no
  hash repeated in a feed. All its schedules have the same `created` and the same duplicates if and
  only if every user and hash is in one of these cases (`SameTotalsIff`): no feed that brings the hash
  lacks a row of it; the user has no row of it; the newest entry of the feeds without a row is newer
  than every row, also after the batch has updated it; or these feeds' entries all have one date and
  no row is older. In the second and third case some copy is shown as new on every schedule
  (`RisingAlwaysShown`), in the others none is (`SettledNeverShown`), which gives the totals
  (`FixedTotals`); outside of them two schedules differ (`OtherwiseVaries`). When all hashes are new
  to their users, the totals are the number of distinct (user, hash) pairs and all other entries,
  forced or not (`CleanBatchCounts`).
* The one unread copy of a hash in a batch becomes an unread row if and only if the refresh that
  holds it commits (`RecordedRowIffCommitted`); the map of the filter is not part of the
  transaction, so a rollback can leave no unread row at all (`RollbackLosesUnread`).
* A `Push` that reaches the switch behind its loop gives up if and only if a context was cancelled by
  then, even with all items handed over (`CheckAbandonsIff`); otherwise it waits and ends with the
  error of the first item that failed (`PushReportsAnswers`). `item.refreshed` is
  set exactly for the items whose goroutine is gone with a refreshed feed (`RefreshedIsLast`), which
  may come after `Push` has returned (`RefreshedMayComeTooLate`).
* A user lookup fails if and only if the store failed it, or failed the call it waited for
  (`FailsIff`).
* Arguments and placeholders of `GetEntryIDs` and `CountEntries` match if and only if
  `WithOffsetID` was not used; those of `GetEntries` always do. `GetEntryIDs` does not join the
  categories, so the server rejects its text if and only if `WithGloballyVisible` was called
  (`EntryIDsQuery`, `GloballyVisibleIDs`).
* The long item id comes back for every id but zero and the negative ones that need 16 digits
  (`LongFormComesBack`). A decimal id n comes back if and only if it is not in
  10^15 <= n < 8 * 10^15 (`DecimalComesBack`): 16 decimal digits are first read as hexadecimal, and
  only the ones that overflow are read again as decimal. Sixteen bytes that begin with hexadecimal
  digits are read as these digits, whatever comes behind them (`RestIsIgnored`).
* Calls that do not overlap leave a cookie readable for `KEY_LIFE_TIME` after it was made
  (`CookieLives`), exactly as long as fewer than `KEYS_NUM` rotations happened (`KeyAges`); failing
  random reads shift the keys too and can lose it sooner (`FailuresLoseCookies`).
* The handlers share the keys without a lock. However their steps interleave, a key is lost to the
  next write of `keys[0]` unless a shift came first, and then lives through fewer than
  `KEYS_NUM - 1` shifts more (`KeySurvivesIff`). While at most one call is between its age check and
  its time stamp, a cookie opens for everyone who finishes within `KEY_LIFE_TIME`
  (`CookieRace.CookieOpens`); two such calls can lose it one second after it was made
  (`TwoRotationsLoseCookie`).
* A message that no key opens gives neither a plaintext nor an error, because `resultErr` is never set.
* An edit-tag request changes the entries its query answers. These are all the user's named entries
  that are not removed if and only if they are at most 1000 (`SelectionIsComplete`); a request can
  name more (`AboveLimit`).
* `checkAndSimplifyTags` never stores `KeptUnreadStream`, so the order of added tags decides
  whether they are accepted (`OrderOfTagsMatters`); `Accepts` is the exact condition.

Hashes, titles and host-independent columns are only compared, so they are integers; one `content`
column stands for the columns that are copied as they are. The map order and the unstable sort of
`distributeJobs` are a parameter (`HostOrder`). `handler.RefreshFeed` is an outcome chosen freely by
each worker. Every SQL statement is one set update and every transaction body runs on a table that
only outside steps may change. Clock readings, random keys, failing operations and the order of
database answers are parameters or free choices.

## Model

| member | source | states |
|---|---|---|
| `Distribute.GroupByHost` | internal/worker/pool.go:157-165 | the per-host lists hold, for each host key, exactly the positions of its jobs in input order |
| `Distribute.GroupedByHost` | internal/worker/pool.go:157-165 | two jobs are in one list if and only if their parsed hosts are equal, the whole URL standing in where it does not parse, and every job is in the list of its host |
| `Distribute.OneRound` | internal/worker/pool.go:174-186 | one pass emits the last job of every live host, removes it, and marks exactly the hosts that became empty |
| `Distribute.EmitRounds` | internal/worker/pool.go:171-192 | the loop with in-place marks and deletions terminates and emits what the round-by-round definition says, for every outcome of the sort |
| `Distribute.MakeItems` | internal/worker/item.go:24-40 | item k carries the k-th emitted job, index k and id k + 1 |
| `DistributeProperties.HostJobsComeReversed` | internal/worker/pool.go:177-181 | at every prefix of the output, a host's jobs are its input list read backwards so far |
| `DistributeProperties.FairShare` | internal/worker/pool.go:172-192 | at every prefix two hosts that still take part differ by at most one emitted job; the empty host stops taking part when the first host is emptied |
| `DistributeProperties.LiveIsPrefix` | internal/worker/pool.go:167-169 | the empty host aside, the hosts still live in a round are the first ones of the sorted list, so emptied ones form a suffix |
| `DistributeProperties.HostOrderExists` | internal/worker/pool.go:167-169 | sorting the hosts of any grouping has an outcome, so the promises about sorted hosts are about something |
| `DistributeProperties.NoJobTwice` | internal/worker/pool.go:156-193 | no job is emitted twice, for any hosts |
| `DistributeProperties.NoJobLost` | internal/worker/pool.go:183-189 | every job is emitted exactly once if and only if the empty host is not larger than another host |
| `DistributeProperties.EmptyHostLosesJob` | internal/worker/pool.go:183-189 | a concrete batch with the empty host that loses a job |
| `PoolProtocol.StepInv` | internal/worker/pool.go:97-154 | every step of Push, Run, a worker or a cancellation keeps the invariant on phases, counters, errors and contexts |
| `PoolProtocol.RunInv` | internal/worker/pool.go:97-154 | hence every run does |
| `PoolProtocol.StepLowersMeasure` | internal/worker/pool.go:195-270 | every step lowers a measure |
| `PoolProtocol.NeverStuck` | internal/worker/pool.go:97-154 | until Push has returned, somebody other than a canceller can move |
| `PoolProtocol.EachItemAtMostOnce` | internal/worker/pool.go:195-226 | workers are started in item order, each item at most once, never more than the configured number at a time |
| `PoolProtocol.WaitGroupIsExact` | internal/worker/pool.go:97-154 | the wait group counts exactly the items that have not ended and is never negative |
| `PoolProtocol.PushReturns` | internal/worker/pool.go:97-154 | no run is longer than a linear bound, and when nothing but a cancellation can happen any more Push has returned |
| `PoolProtocol.PushReportsFirstError` | internal/worker/pool.go:132-153 | an uncancelled Push ends with Pool.Err() equal to the error of the failed item of lowest index, or nil |
| `PoolProtocol.AbandonedKeepsErr` | internal/worker/pool.go:109-130 | Push gives up only on a cancelled context and then leaves the earlier error |
| `PoolRuns.CheckAbandonsIff` | internal/worker/pool.go:121-130 | in every run a Push that reaches the switch ends abandoned if and only if a cancellation came before, then with Pool.err as it was; otherwise it waits, whatever is cancelled later |
| `PoolRuns.CancelledMayReturn` | internal/worker/pool.go:110-130 | from every state in which a context is cancelled and Push has not decided, its own next steps give up, without any other goroutine moving |
| `PoolRuns.GivesUpAtCheck` | internal/worker/pool.go:121-130 | a run in which Push gave up has passed the switch |
| `PoolRuns.PushReportsAnswers` | internal/worker/pool.go:132-153 | a Push that waited and returned had an answer of refreshFeed for every item, and Pool.Err() is the answer of the first item that failed, or nil |
| `PoolRuns.RefreshedIsReported` | internal/worker/pool.go:228-240 | item.refreshed is set exactly for items whose refresh was answered with success and whose goroutine has written it |
| `PoolProtocol.RefreshedIsLast` | internal/worker/pool.go:228-240 | in every state of every run item.refreshed is set exactly for the items whose goroutine has ended with a refreshed feed |
| `PoolProtocol.RefreshedMayComeTooLate` | internal/worker/pool.go:228-240 | a run in which Push returns before item.refreshed is set |
| `UserCache.StepInv` | internal/worker/cache.go:33-77 | every step of any caller keeps the cache and flight invariants |
| `UserCache.RunInv` | internal/worker/cache.go:33-77 | hence every interleaving does |
| `UserCache.AtMostOneFetch` | internal/worker/cache.go:33-59 | each user is fetched successfully at most once |
| `UserCache.MissCountsUsers` | internal/worker/cache.go:71-77 | in every state of every interleaving miss equals the size of the cache map |
| `UserCache.LookupsAgree` | internal/worker/cache.go:33-69 | all successful lookups of an id return the same object |
| `UserCache.NeverStuck` | internal/worker/cache.go:33-59 | while a call has not returned, some call can move without a new one arriving |
| `CacheRuns.FailsIff` | internal/worker/cache.go:40-58 | over every interleaving an answered call fails if and only if the store failed it or failed the call it waited for |
| `CacheRuns.NoFailureWithoutStore` | internal/worker/cache.go:33-59 | while the store answers, every answered call has a user |
| `CacheRuns.WokenAgrees` | internal/worker/cache.go:40-58 | a call that waited for another ends with that call's answer, and came with the same id |
| `CacheRuns.AnswerIsTheirUser` | internal/worker/cache.go:33-59 | the user a call is given was fetched for the id the call came with |
| `CacheRuns.HitAnswersAtOnce` | internal/worker/cache.go:35-37 | a call that finds its user in the map is given it, without fetching or waiting |
| `RefreshSpec.StoredByMeaning` | internal/model/feed.go:591-600 | a hash resolves to the feed's own row when there is one, else to the first row listed |
| `Refresh.Entry.KeepImportedStatus` | internal/model/entry.go:177-181 | imported entries keep their status, others take the new one |
| `Refresh.RefreshFeed` | internal/model/entry.go:324-332 | stamps every entry with user and feed, makes it unread if it has no status and keeps its status otherwise, and returns the hashes in order |
| `Refresh.MapStoredEntries` | internal/model/feed.go:591-600 | the overwriting loop computes the specified map |
| `Refresh.FeedRefreshed.AppendOne` | internal/model/feed.go:571-587 | one entry goes to exactly the list its class asks for, with its status |
| `Refresh.FeedRefreshed.Append` | internal/model/feed.go:562-589 | created, updated, status changes and the dedup count of the whole feed are those of the classification |
| `Refresh.FeedRefreshed.AppendAll` | internal/model/feed.go:571-588 | the loop over a list of entries extends both lists in order |
| `Refresh.UserHashes.FilterOne` | internal/storage/dedup.go:53-61 | one entry is recorded, passed or turned to read |
| `Refresh.UserHashes.Filter` | internal/storage/dedup.go:48-63 | the loop leaves entries, map and counters as the specification says |
| `Refresh.DedupEntries.UserHashesOf` | internal/storage/dedup.go:31-41 | a user's map is created once and never replaced |
| `Refresh.DedupEntries.Filter` | internal/storage/dedup.go:23-29 | filters one user's created entries and leaves the maps of all other users alone |
| `DedupOrder.CreatedCountsPairs` | internal/storage/dedup.go:48-63 | created equals the number of distinct (user, hash) pairs seen unread, which are the entries of the per-user maps |
| `DedupOrder.CleanBatchAccounts` | internal/storage/dedup.go:48-63 | without repeats and imports one copy of each pair stays unread and all others are counted dedups |
| `DedupOrder.OrderDoesNotMatter` | internal/storage/dedup.go:23-63 | created is the same for every permutation of the entries; without repeats and imports so are the numbers left unread and deduplicated |
| `DedupOrder.FixedCallsCommute` | internal/storage/dedup.go:23-63 | the same Filter calls in any order: created is the number of distinct pairs they bring unread; without repeats and imports that many stay unread and the rest are dedups |
| `DedupOrder.CallsAreTheirEvents` | internal/storage/dedup.go:23-63 | a sequence of Filter calls is the sequence of its entries |
| `DedupOrder.RepeatsMakeOrderMatter` | internal/storage/dedup.go:53-61 | a smallest batch whose dedups and unread entries depend on the order |
| `DedupLeads.CountsAreAway` | internal/storage/dedup.go:53-61 | dedups are the copies of other feeds than the first; of these the imported ones stay unread |
| `DedupLeads.DedupsOrderFreeIff` | internal/storage/dedup.go:53-61 | all orders of the entries give the same dedups if and only if for every user and hash all feeds that bring it unread bring it equally often |
| `DedupLeads.LeftOrderFreeIff` | internal/storage/dedup.go:53-61 | all orders leave the same number unread if and only if they bring it equally often, imported copies not counted |
| `DedupLeads.EvenCallsCommute` | internal/storage/dedup.go:23-63 | under these conditions whole Filter calls can come in any order |
| `BatchDedup.RunKeeps` | internal/storage/entry.go:131-161 | every interleaving of read, classify, filter, commit and rollback steps of a batch, with outside changes, keeps the invariants on the unread copies and on created |
| `BatchDedup.CreatedCountsRecorded` | internal/storage/dedup.go:23-63 | in every state of every run created is the number of recorded (user, hash) pairs |
| `BatchDedup.UnreadCopiesShareAFeed` | internal/storage/dedup.go:23-63 | all non-imported entries of a user and hash left unread in any created list belong to the feed recorded in the map |
| `BatchDedup.RecordedCopyStaysUnread` | internal/storage/dedup.go:48-63 | for every recorded hash its feed keeps a copy unread |
| `BatchDedup.FilterRecords` | internal/storage/dedup.go:53-61 | nothing passes the filter unread without being recorded |
| `BatchCounts.CleanBatchCounts` | internal/storage/entry.go:131-161 | over every schedule of a clean batch of new entries with all refreshes filtered: created is the number of distinct (user, hash) pairs, and the dedups of Append and filter together are all other entries |
| `BatchCounts.RunKeepsClean` | internal/storage/entry.go:131-161 | in every state of such a run the maps record exactly the hashes of the filtered refreshes, stored copies were recorded first, and created is what the filtered refreshes did not deduplicate |
| `BatchExamples.StoredRowsMatter` | internal/storage/entry.go:145-161 | two schedules of one batch with different totals whenever the user has an older copy of the hash from one of its two feeds |
| `BatchTotals.RunInv` | internal/storage/entry.go:131-161 | in every state of a run of different unforced feeds the rows and dates of the table follow from which refreshes have committed, and every list holds exactly the feed's new and newer entries |
| `ShownPairs.SettledNeverShown` | internal/model/feed.go:562-589 | a hash whose new entries have one date, with a row and none older, is shown as new on no schedule |
| `ShownPairs.RisingAlwaysShown` | internal/model/feed.go:562-589 | a hash with a newest new entry newer than every row, and than what the batch stores over one, is shown on every schedule that filters all feeds |
| `ShownPairs.CompleteTotals` | internal/storage/dedup.go:48-63 | after such a schedule created is the number of hashes shown and every other entry without an own row is a counted duplicate |
| `ScheduleFree.OtherwiseVaries` | internal/storage/entry.go:145-161 | for every other hash two schedules, one showing it and all that the other shows |
| `ScheduleFree.FixedTotals` | internal/storage/entry.go:131-161 | when every hash rises or is settled, the totals of every schedule: the number of rising hashes, and the other entries without an own row |
| `ScheduleFree.SameTotalsIff` | internal/storage/entry.go:131-161 | all schedules of the batch have the same totals if and only if every hash rises or is settled |
| `BatchRows.RecordedRowIffCommitted` | internal/storage/entry.go:109-161 | different feeds, nothing outside: a recorded hash belongs to a refresh of the batch and ends as an unread row of its feed if and only if that refresh commits |
| `BatchRows.UnreadRowIsRecorded` | internal/storage/entry.go:109-161 | an unread row the batch inserted from a non-imported entry belongs to the recorded feed |
| `BatchRows.OneUnreadRow` | internal/storage/entry.go:109-161 | of a user and hash the batch inserts at most one such row |
| `BatchRows.RunKeepsIds` | internal/storage/entry.go:368-411 | however the refreshes of a batch interleave and roll back, every row has an id of its own |
| `BatchExamples.RollbackLosesUnread` | internal/storage/entry.go:109-129 | for any two feeds with one new hash, a run in which the recorded copy is rolled back and the other one is stored as read |
| `EntryRows.InsertMeaning` | internal/storage/entry.go:368-411 | inserted rows have the new keys and consecutive ids, and no other row changes |
| `EntryRows.InsertStep` | internal/storage/entry.go:368-411 | the unique index accepts the next row exactly when all keys so far are new and distinct |
| `EntryRows.UpdateLast` | internal/storage/entry.go:222-268 | of several updates of a key the last one decides what they write |
| `EntryRows.UpdateOnce` | internal/storage/entry.go:222-268 | a key updated once has exactly that update |
| `UpsertSpec.ClassOfRow` | internal/model/feed.go:562-589 | the feed's own stored row decides between update and keep; without one the entry is created |
| `UpsertSpec.CreatedAreAbsent` | internal/model/feed.go:566-589 | created keys are absent from the table |
| `UpsertSpec.UpdatedArePresent` | internal/model/feed.go:566-589 | updated keys are present, so no UPDATE returns no row |
| `UpsertSpec.CommitsIff` | internal/storage/entry.go:131-143 | the refresh commits if and only if its new hashes are distinct |
| `UpsertSpec.RefreshUpserts` | internal/storage/entry.go:131-161 | in a committed refresh the own row of every entry whose hash the feed does not repeat ends as a keyed upsert leaves it; a new row has the next free id and is read when another feed's stored or recorded copy wins, and otherwise has its entry's status |
| `UpsertSpec.OtherRowsUntouched` | internal/storage/entry.go:131-161 | keys the feed did not bring, and all rows of other feeds, stay as they are, and no other key appears |
| `UpsertSpec.DatesNeverGoBack` | internal/model/feed.go:566-589 | unforced, published_at of a stored row never goes back, even with repeated hashes |
| `UpsertSpec.RepeatIsNoOpIff` | internal/storage/entry.go:131-161 | repeating any committed refresh, unforced, creates nothing, and updates nothing if and only if the last entry written over each stored row is the newest the feed has for its hash |
| `UpsertSpec.RepeatIsNoOp` | internal/storage/entry.go:131-161 | repeating a refresh with distinct hashes, unforced, creates and updates nothing |
| `UpsertSpec.RepeatedHashUpdatesAgain` | internal/model/feed.go:566-589 | a feed with a repeated stored hash for which the repetition does update |
| `StoreMeaning.RefreshSettles` | internal/storage/entry.go:131-161 | in columns, for every parsed entry whose hash the feed does not repeat: a new row takes over user, date, content and star, is dated now, and has the entry's status, unread if it had none, or read when an at least as new copy of another feed is stored or another feed of the batch recorded the hash; a stored row is overwritten if the entry is newer or forced, its star for imports only; otherwise it stays |
| `StoreMeaning.RefreshKeepsSet` | internal/model/entry.go:324-332 | no refresh leaves a row without a status, however its hashes repeat |
| `StoreMeaning.AppendFollowsRow` | internal/model/feed.go:566-589 | an entry that is not written over its stored row takes over the row's status, unless imported; one that is written keeps its own |
| `EntryStore.EntryTable.PublishedEntries` | internal/storage/entry.go:163-201 | the answer lists exactly the user's rows with one of the hashes |
| `EntryStore.EntryTable.UpdateEntries` | internal/storage/entry.go:203-220 | succeeds exactly when every key is there, writes the rows, and gives each entry its row's id |
| `EntryStore.EntryTable.BatchCreateEntries` | internal/storage/entry.go:353-366 | one INSERT per entry: rows, success and ids in the entries |
| `EntryStore.EntryTable.CopyFrom` | internal/storage/entry.go:280-326 | COPY adds the same rows under the same condition and indexes the entries by hash |
| `EntryStore.EntryTable.LinkByHash` | internal/storage/entry.go:328-350 | through the hash index every entry gets the id of its own row and is marked stored |
| `EntryStore.EntryTable.CreateEntries` | internal/storage/entry.go:270-351 | bulk and one-by-one paths meet one contract: same rows, same success, same ids |
| `EntryStore.EntryTable.KnownEntries` | internal/storage/entry.go:145-161 | stamps, reads, classifies and filters, leaving entries, lists and shared map as specified |
| `EntryStore.EntryTable.RefreshEntries` | internal/storage/entry.go:131-143 | the statements turn the table into the specified one, or fail exactly on repeated new hashes |
| `EntryStore.EntryTable.StoreFeedEntries` | internal/storage/entry.go:109-129 | the refresh as a transaction: the upserted table with linked entries, or the table as it was; in columns, every entry whose hash the feed does not repeat ends as in StoreMeaning.RefreshSettles, and no row is without a status |
| `Interning.JoinsAreCoherent` | internal/storage/entry_query_builder.go:407-454 | rows of the joins agree whenever their feed, category or icon ids do |
| `Interning.EntryFeeds.ScanRow` | internal/storage/entry_query_builder.go:320-400 | scanning a row through the new entry writes the scratch objects only |
| `Interning.EntryFeeds.ReuseFeed` | internal/storage/entry_feeds.go:37-51 | the entry gets the feed object of its id, the scratch is never kept, and earlier objects stay as they are |
| `Interning.EntryFeeds.ReuseCategory` | internal/storage/entry_feeds.go:53-64 | a category id keeps one object with the values of its first row |
| `Interning.EntryFeeds.ReuseIcon` | internal/storage/entry_feeds.go:66-77 | an icon id, 0 included, keeps one object with the values and feed id of its first row |
| `Interning.FirstsStandFor` | internal/storage/entry_feeds.go:37-77 | in coherent rows the first row of an id stands for every row of it |
| `Interning.GetEntries` | internal/storage/entry_query_builder.go:314-404 | every entry shows the columns of its own row through its feed, category and icon, and icon 0 with the empty hash where the row lacks an icon id or a hash; two entries share an object exactly when the ids are equal; the icon's feed id is that of the first row showing it; no entry refers to an object that rows are scanned into |
| `Numerals.RenderReadsBack` | internal/storage/entry_query_builder.go:57 | strconv.Itoa: the digits of a number have its value |
| `QueryText.CondEvaluates` | internal/storage/entry_query_builder.go:48-66 | a condition text evaluates to what it was written for, under a reader that takes alias, column, operator and placeholder from the characters and gives every operator its meaning on the column's value |
| `QueryText.TermMeans` | internal/storage/entry_query_builder.go:68-274 | for every condition the operator read from its text, applied to the column read from its text, has the condition's meaning on every row and argument |
| `QueryText.LowerComparesLetters` | internal/storage/entry_query_builder.go:208-214 | tags are compared letter by letter, whatever their case |
| `QueryText.SplitUndoesJoin` | internal/storage/entry_query_builder.go:499-504 | conditions joined with AND come apart at the same places |
| `QueryText.WhereEvaluates` | internal/storage/entry_query_builder.go:499-504 | the joined text evaluates to the conjunction of its conditions |
| `QueryText.WhereRejected` | internal/storage/entry_query_builder.go:485-490 | a joined text with a condition whose table the FROM clause does not bind evaluates to nothing |
| `QueryText.HighReadsBack` | internal/storage/entry_query_builder.go:257-268 | the row-number condition is read as: row number greater than that of the id it was given, or than 0 |
| `QueryPlan.SuitsServes` | internal/storage/entry_query_builder.go:68-274 | the condition and argument compiled for each request mean the request |
| `QueryPlan.AddsCondition` | internal/storage/entry_query_builder.go:48-66 | appending a condition that serves a request adds exactly this request to what the texts ask |
| `QueryPlan.TextsCover` | internal/storage/entry_query_builder.go:257-268 | with the row-number conditions the placeholders are exactly 1..len(args); without them exactly when there are none |
| `QueryBuilder.EntryQueryBuilder.constructor` | internal/storage/entry_query_builder.go:25-32 | a new builder asks for the user's entries, at most 1000 |
| `QueryBuilder.EntryQueryBuilder.AppendCondition` | internal/storage/entry_query_builder.go:48-66 | appends the argument and the text with its position |
| `QueryBuilder.EntryQueryBuilder.WithAuthor` | internal/storage/entry_query_builder.go:73-76 | adds exactly this request, also for the empty name |
| `QueryBuilder.EntryQueryBuilder.WithSearchQuery` | internal/storage/entry_query_builder.go:79-91 | adds the request and a rank with the same placeholder; nothing for the empty query |
| `QueryBuilder.EntryQueryBuilder.WithStarred` | internal/storage/entry_query_builder.go:94-101 | adds exactly this request, without an argument |
| `QueryBuilder.EntryQueryBuilder.BeforeChangedDate` | internal/storage/entry_query_builder.go:104-108 | adds exactly this request |
| `QueryBuilder.EntryQueryBuilder.AfterChangedDate` | internal/storage/entry_query_builder.go:111-115 | adds exactly this request |
| `QueryBuilder.EntryQueryBuilder.BeforePublishedDate` | internal/storage/entry_query_builder.go:118-122 | adds exactly this request |
| `QueryBuilder.EntryQueryBuilder.AfterPublishedDate` | internal/storage/entry_query_builder.go:125-129 | adds exactly this request |
| `QueryBuilder.EntryQueryBuilder.BeforeEntryID` | internal/storage/entry_query_builder.go:132-137 | adds the request; 0 asks for nothing |
| `QueryBuilder.EntryQueryBuilder.AfterEntryID` | internal/storage/entry_query_builder.go:140-145 | adds the request; 0 asks for nothing |
| `QueryBuilder.EntryQueryBuilder.WithEntryIDs` | internal/storage/entry_query_builder.go:148-159 | selects the listed ids; the empty list and the list of one 0 select everything |
| `QueryBuilder.EntryQueryBuilder.WithEntryID` | internal/storage/entry_query_builder.go:162-167 | selects the id; 0 adds no condition |
| `QueryBuilder.EntryQueryBuilder.WithFeedID` | internal/storage/entry_query_builder.go:170-175 | selects the feed; ids up to 0 add no condition |
| `QueryBuilder.EntryQueryBuilder.WithCategoryID` | internal/storage/entry_query_builder.go:178-183 | selects the category; ids up to 0 add no condition |
| `QueryBuilder.EntryQueryBuilder.WithStatus` | internal/storage/entry_query_builder.go:186-191 | selects the status; the empty one adds no condition |
| `QueryBuilder.EntryQueryBuilder.WithStatuses` | internal/storage/entry_query_builder.go:194-205 | selects the listed statuses, with the one- and zero-element cases of the code |
| `QueryBuilder.EntryQueryBuilder.WithTags` | internal/storage/entry_query_builder.go:208-214 | selects rows with all tags, ignoring case |
| `QueryBuilder.EntryQueryBuilder.WithoutStatus` | internal/storage/entry_query_builder.go:217-222 | excludes the status; the empty one adds no condition |
| `QueryBuilder.EntryQueryBuilder.WithSorting` | internal/storage/entry_query_builder.go:225-239 | appends a sort for asc and desc in any case, spelled out letter by letter, and nothing otherwise |
| `QueryBuilder.EntryQueryBuilder.WithLimit` | internal/storage/entry_query_builder.go:242-247 | takes 1..1000 and ignores everything else |
| `QueryBuilder.EntryQueryBuilder.WithOffset` | internal/storage/entry_query_builder.go:250-255 | takes positive offsets and ignores everything else |
| `QueryBuilder.EntryQueryBuilder.WithOffsetID` | internal/storage/entry_query_builder.go:257-268 | adds an argument and its row-number condition; 0 adds nothing |
| `QueryBuilder.EntryQueryBuilder.WithGloballyVisible` | internal/storage/entry_query_builder.go:270-274 | adds both visibility requests |
| `QueryBuilder.EntryQueryBuilder.BuildCondition` | internal/storage/entry_query_builder.go:499-504 | on every row the WHERE text evaluates to: the user's, and wanted by all calls so far; without the categories table it is rejected exactly when category visibility was asked for |
| `QueryBuilder.EntryQueryBuilder.EntriesQuery` | internal/storage/entry_query_builder.go:407-461 | the text means the calls, keeps the rows behind the anchors, and uses every argument and no other placeholder |
| `QueryBuilder.EntryQueryBuilder.EntryIDsQuery` | internal/storage/entry_query_builder.go:485-490 | its FROM clause lacks the categories: the text is rejected if and only if category visibility was asked for and means the calls otherwise; placeholders and arguments match if and only if WithOffsetID was not used |
| `QueryBuilder.GloballyVisibleIDs` | internal/storage/entry_query_builder.go:270-274 | after WithGloballyVisible the id query is rejected, whatever else was asked for |
| `QueryBuilder.EntryQueryBuilder.CountQuery` | internal/storage/entry_query_builder.go:277-285 | the same for the count |
| `Paging.ScrollQuery` | internal/storage/entry_query_builder.go:407-461 | the query compiled with WithOffsetID answers the page after the given id among the rows asked for, from row 0 when the id is not there |
| `Paging.PageIsSlice` | internal/storage/entry_query_builder.go:257-268 | a page is the rows behind its anchor, as many as its limit, or all that are left |
| `Paging.NextSkipsNothing` | internal/storage/entry_query_builder.go:257-268 | after a page everything up to its last row has been shown, whether the anchor was still there or not |
| `Paging.RunSkipsNothing` | internal/storage/entry_query_builder.go:257-268 | however pages and departures interleave, every remaining row up to the anchor has been shown |
| `Paging.ShortPageIsTheEnd` | internal/storage/entry_query_builder.go:257-268 | when a page comes back short, every row still in the result has been shown |
| `Paging.PrepareStream` | internal/googlereader/handler.go:1098-1107 | the requests added to the builder, the sort by published_at in the direction asked for, and the limit and offset they end in |
| `Paging.TimesWanted` | internal/googlereader/handler.go:1102-1107 | the requests on times keep exactly the rows published after the start and before the stop, where these are given |
| `Paging.StreamIsQueried` | internal/googlereader/handler.go:1109-1136 | ids and count of the compiled queries give the specified response |
| `Paging.StreamIDs` | internal/googlereader/handler.go:1095-1137 | a request as a whole: from the calls through both queries, the first sorted as asked, to the response, which is the slice of the matching ids with its continuation |
| `Paging.ContinuationAdvances` | internal/googlereader/handler.go:1132-1136 | a response holds the ids from its offset on, as many as asked for, or 1000 where the count is out of range, unless it is the last; the continuation is the next offset, or 0 at the end |
| `Paging.FollowingCollectsAll` | internal/googlereader/handler.go:1095-1137 | following continuations with any requested counts terminates and collects the whole list, each item once and in order |
| `SecureCookie.KeyAges` | internal/http/securecookie/securecookie.go:66-80 | a key sits at the number of rotations since it was made and is gone exactly after KEYS_NUM of them |
| `SecureCookie.ShiftsTakeTime` | internal/http/securecookie/securecookie.go:66-80 | successful rotations by calls that do not overlap are at least a key's life apart |
| `SecureCookie.CookieLives` | internal/http/securecookie/securecookie.go:40-102 | a cookie encrypted at time t gives its plaintext back until t + (keysNum - 1) * keyLifeTime, whatever is encrypted in between by calls that do not overlap |
| `SecureCookie.BoundIsTight` | internal/http/securecookie/securecookie.go:66-80 | one second after that bound the key can be gone |
| `SecureCookie.FailuresLoseCookies` | internal/http/securecookie/securecookie.go:71-77 | failing random reads shift keys without advancing the time and can lose a cookie early |
| `CookieRace.KeySurvivesIff` | internal/http/securecookie/securecookie.go:66-80 | over every interleaving of checks, shifts, fills and stamps a new key is still there if and only if keys[0] was not written again, or a shift came before that write and fewer than keysNum - 1 after it |
| `CookieRace.RunLives` | internal/http/securecookie/securecookie.go:40-80 | while at most one call rotates and no random read fails, every sealed key is held, no further up than its age allows, until its time is over |
| `CookieRace.CookieLives` | internal/http/securecookie/securecookie.go:40-80 | so a sealed cookie has its key until (keysNum - 1) key lives after its call looked at the clock |
| `CookieRace.CookieOpens` | internal/http/securecookie/securecookie.go:90-102 | and every reader that starts after the sealing and finishes by then opens it, also when keys are shifted during its scan |
| `CookieRace.TwoRotationsLoseCookie` | internal/http/securecookie/securecookie.go:66-80 | two calls that both find the key too old lose a cookie one second after it was sealed |
| `CookieRace.RotatedIsCall` | internal/http/securecookie/securecookie.go:66-80 | a rotation whose steps are not interrupted is one call of the sequential model |
| `SecureCookie.SecureCookie.NextKey` | internal/http/securecookie/securecookie.go:66-80 | the in-place shift, the new key, the stored time and the error case |
| `SecureCookie.SecureCookie.Encrypt` | internal/http/securecookie/securecookie.go:40-64 | seals with the newest key, or fails after the rotation |
| `SecureCookie.SecureCookie.Decrypt` | internal/http/securecookie/securecookie.go:90-130 | opens exactly what one of the keys sealed; short messages are an error, other failures neither plaintext nor error |
| `Categories.FirstExists` | internal/storage/category.go:257-260 | a first remaining title exists when a category remains |
| `Categories.FirstIsUnique` | internal/storage/category.go:257-260 | and it is one category, because titles are unique |
| `Categories.Storage.MoveFeeds` | internal/storage/category.go:253-265 | exactly the feeds of doomed categories move, to the first remaining one |
| `Categories.Storage.RemoveAndReplaceCategoriesByName` | internal/storage/category.go:239-279 | aborts unchanged, or removes exactly the named categories, keeps one, keeps every feed, moves exactly the affected ones, and leaves every feed in a category of its user |
| `Categories.Storage.RemoveCategory` | internal/storage/category.go:225-234 | without the move the feeds go with their category |
| `Migrate.RunKeeps` | internal/storage/migrate.go:14-46 | one run, failing anywhere: the applied migrations stay contiguous and only grow; success exactly when every operation succeeds, and then at the last version |
| `Migrate.ResumedRunsCompleteOnce` | internal/storage/migrate.go:14-88 | after any number of interrupted runs a successful one leaves every migration from the base version on applied once, in order |
| `Migrate.BaseBeyondList` | internal/storage/migrate.go:26-45 | why the recorded base version must not exceed the list |
| `Migrate.Storage.SchemaVersion` | internal/storage/migrate.go:48-67 | 0 without the version table |
| `Migrate.Storage.ApplyVersion` | internal/storage/migrate.go:69-88 | migration and version are committed together or not at all |
| `Migrate.Storage.Run` | internal/storage/migrate.go:14-46 | the method is the specified run for every failing operation |
| `ItemID.ParseItemIDsFromRequest` | internal/googlereader/item.go:59-75 | all ids in order, or the first error |
| `ItemID.LongFormComesBack` | internal/googlereader/item.go:19-43 | for every int64, the long form parses back if and only if the id is not 0 and above -2^60 |
| `ItemID.LongFormWidth` | internal/googlereader/item.go:19-22 | the long form is the prefix and 16 characters, digits for ids from 0 on, and 17 characters for the negative ids that need 16 digits |
| `ItemID.NoNumberIsRefused` | internal/googlereader/item.go:31-56 | text without a digit is refused, behind the prefix as no hexadecimal and without it as no decimal |
| `ItemID.DecimalsOnly` | internal/googlereader/item.go:51-56 | text without the prefix that is not 16 bytes long is an id if and only if it spells a signed or unsigned decimal within int64, and then that one |
| `ItemID.RestIsIgnored` | internal/googlereader/item.go:45-49 | 16 bytes that begin with hexadecimal digits are read as these digits, whatever comes behind them |
| `ItemID.SpacesAreSkipped` | internal/googlereader/item.go:34-37 | behind the prefix a space changes nothing and a line break is refused |
| `ItemID.UnpaddedFormComesBack` | internal/googlereader/item.go:31-43 | the prefixed form without padding parses back |
| `ItemID.BareFormComesBack` | internal/googlereader/item.go:45-49 | bare 16 hexadecimal digits parse back |
| `ItemID.DecimalComesBack` | internal/googlereader/item.go:45-56 | a decimal id parses back if and only if it does not have 16 digits with a leading digit below 8 |
| `EditTag.CheckAndSimplifyTags` | internal/googlereader/handler.go:78-125 | accepts exactly the lists described by Accepts and reduces them to read and starred requests |
| `EditTag.OrderOfTagsMatters` | internal/googlereader/handler.go:80-95 | one order of two added tags is accepted, the other is not |
| `EditTag.SortEntry` | internal/googlereader/handler.go:325-351 | an entry goes to the lists its state and the tags ask for |
| `EditTag.SortEntries` | internal/googlereader/handler.go:319-353 | one loop fills the four lists and filters the array in place to the newly starred entries, in order |
| `EditTag.AgreeingUpdates` | internal/storage/entry.go:475-535 | updates that agree on a row can run in any order and number |
| `EditTag.EditTags` | internal/googlereader/handler.go:285-391 | for the entries that were selected: refused without readable tags, otherwise every selected entry ends as the tags ask, no other row changes, and the newly starred ones are handed on; which entries are selected is the next rows' matter |
| `EditRequest.SelectionIsComplete` | internal/googlereader/handler.go:310-313 | the selected entries are those of the table, and they are all the user's named entries that are not removed if and only if these are at most 1000 |
| `EditRequest.SelectionQuery` | internal/storage/entry_query_builder.go:25-32 | the compiled query answers the named entries that are not removed, in its order, cut at the default limit |
| `EditRequest.EditNamed` | internal/googlereader/handler.go:285-391 | the request from its query on: the answered entries end as the tags ask, no other row changes, and whether that reaches every named entry is decided by the limit |
| `EditRequest.AboveLimit` | internal/storage/entry_query_builder.go:25-32 | a table and a request that names more entries than the limit, one of which is not selected |
| `EditTag.UpdatesDoWhatIsAsked` | internal/googlereader/handler.go:355-387 | in any order the planned updates leave every selected entry as the tags ask and touch no other row |
| `EditTag.StarredUpdateTouches` | internal/storage/entry.go:518-535 | the update of a non-empty starred list reaches a row, so it reports no error |
| `EditTag.SelectEntries` | internal/googlereader/handler.go:310-313 | the compiled query wants exactly the named entries that are not removed, at most 1000; a single 0 names all |

## Left out

- Concurrent calls of `Push`: the pool is modelled with one batch at a time, as the scheduler uses it.
- Visibility of `item.refreshed`, the log totals and the hit counter of the user cache: the code does not guarantee them.
- Users that do not exist: the cache model fetches existing users or fails.
- Ties in the order of a query: paging and continuations take it that every request lists equal rows the same way, which sorting by published_at alone does not fix; with ties listed differently a continuation can repeat or miss entries.
- Real SQL: null logic, timestamps, collation, full-text ranking and isolation levels; generated ids are consecutive here and are not taken back by a rollback.
- Errors of single database statements in `StoreFeedEntries` other than missing rows and unique violations.
- The select lists of the queries, `WithContent`, `CountStatusStarred` and the text of sort expressions: sort expressions are kept as their parts.
- `strings.EqualFold` and `LOWER` beyond ASCII letters and the long s.
- Scan errors and truncated results in `GetEntries`: the loop gets the rows that were delivered.
- Torn reads and writes of a key or of the time by handlers that race, and the reading of keys[0] in two steps: a shift, a fill, a stamp and a read of a key are one step each.
- Base64, AES-GCM and the length of keys and nonces: sealing is symbolic.
- `handler.RefreshFeed`, parsers, filters, sanitizer, fetcher, HTTP handlers, templates, forms, integrations, metrics and logging.
- `changed_at` of the tag updates, and updates by others between the selection and the updates of one edit-tag request.
- Invalid UTF-8 in item ids: texts are sequences of characters whose UTF-8 length is computed.

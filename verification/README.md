# PageSpeed response path: a verified model

This project models how PageSpeed carries a response from its origin to an Apache
client, and proves what the comments and DCHECKs along that path rely on. It covers
four connected pieces.

* **The proxied fetch and its property-cache collector** (`ProxyFetch.dfy`,
  `PropertyCollector.dfy`, `FetchProtocol.dfy`, `FetchInvariants.dfy`,
  `LookupInvariants.dfy`, `FetchRuns.dfy`, `FetchTheorems.dfy`,
  `FetchTermination.dfy`, `FetchProgress.dfy`). Two objects on two sequences, a fetcher thread, a driver that
  calls back and an alarm share a text queue and a handful of flags. The two classes
  hold the mutex-protected sections and the sequence tasks; each method is proved
  against a function on values. `FetchProtocol.dfy` puts those functions together as
  steps of one system: every step is one locked section, or one stretch between two of
  them that touches nothing shared, and any enabled step may come next. The invariants
  hold in every reachable state, for every configuration and every buffer limit,
  including 0.
* **The lease-protected zero-copy serve** (`MappedRegion.dfy`, `MmapBucket.dfy`,
  `ZeroCopyServe.dfy`, `BucketPool.dfy`, `CalmServe.dfy`, `ApacheFetch.dfy`,
  `ApacheFetchTheorems.dfy`). A body aliases cache memory that a writer may wrap over. The region is a small step machine: a clock, a
  lease, a wrap intent, the deadline of a forced wrap, and an epoch; bytes change only
  once the epoch has moved, a normal wrap waits for the lease, a forced one for its
  deadline alone. Its events happen between any two bytes that are copied or sent.
  Buckets morph in place and share a counted pin. They are seen in two ways: as a pool, in
  which any bucket may be split, copied, read, set aside or destroyed at any time, whatever
  became of the others; and as a serve, in which a brigade is sent in order, with copies of
  its buckets held elsewhere. Above them are the sink and the fetch, buffered or streaming.
* **The HTML input pipeline** (`HtmlDetector.dfy`, `InstawebContext.dfy`,
  `HtmlInputTheorems.dfy`, `OriginFlushes.dfy`). The server cuts the response as it likes; a flush window cuts
  it again, a detector holds leading blanks back, and the bytes end in the parser or in
  the output.
* **The queue between producer and request thread** (`BufferedFetchQueue.dfy`,
  `BufferedMappedWrites.dfy`), and two text transformations: redirect fix-up
  (`LocationFixup.dfy`) and Cache-Control merging (`CacheControl.dfy`), over the string
  operations in `Strings.dfy`.

`ByteStreams.dfy` has byte strings and byte strings in pieces.

Two facts that the source leaves to the reader are settled here.

* `ReleaseBuffered(&output_)` in `Finish` swaps the output away. Nothing is lost, because
  the output is empty whenever the type is undecided; `HtmlInputTheorems.Conserves` has
  that as part of its invariant.
* The separator that the redirect fix-up inserts is chosen from the resolved URL, which
  inherits the base's query when the Location is empty or only a fragment. Such a
  Location is always canonicalising, so the choice is right wherever it is made
  (`LocationFixing.FollowedHasOwnQuery`).

What the environment is taken to do: one thread calls the fetch's Write, Flush and Done,
with nothing after Done; each sequence runs one task at a time, in order; a cancelled
alarm does not fire; a burst of sends ends within the read margin and the lease after it
began; a read error ends a serve; leases are on. A forced wrap is deferred for at least
the read margin, and for at least the emit margin where a serve is admitted by it
(`MappedRegions.AdmittedThenAliased`); copying and the pool of buckets do not need that.
A post-lookup task is offered before
Detach is called, and while the collector is known to live: while a lookup is out, or
while the fetch holds it and ConnectProxyFetch has not been called. With no lookup out, an
offer after ConnectProxyFetch is outside the model, because the collector may already have
deleted itself. Logging, counters and thread-synchronizer points are not modelled.

## Findings

Five places where the code does not do what its comments or callers rely on; each has a
failing input and the exact condition.

* **A rejected request loses its options before its lookups are told.** For a proxied URL
  that is not authorized, CreateNewProxyFetch cleans the driver up
  (`pagespeed/automatic/proxy_fetch.cc:136`) and only then detaches the collector (line
  138). Custom options belong to the driver (`pagespeed/automatic/proxy_interface.cc:352`),
  and a driver without a pool is deleted when it is released
  (`net/instaweb/rewriter/server_context.cc:922-926`). A lookup that validates an entry
  between the two calls reads options that may be gone while `is_options_valid_` is still
  set. `FetchTheorems.RejectedRequestLosesOptions` reaches that state;
  `FetchTheorems.OptionsOutliveLookups` proves that it is the only place: with a lookup out
  and Detach not called, the driver lives if and only if the request is not between those
  two calls. Detaching first would close the gap.
* **A fetch that fails while its type is undecided loses what it held.** HandleDone releases
  held blanks on success only. `FetchTheorems.FailedUndecidedLosesHeld` is a run of one
  blank; `FetchTheorems.PassesOnExactly` has the condition: a fetch that is neither
  parsed nor refused its body passes on all that was written if and only if Done reports
  success, or the type is decided or was never in question, or nothing is held.
* **Whether a response is taken for HTML can depend on how the server cut it.**
  `HtmlInputTheorems.JudgedAlikeExactly` says for which responses: exactly those in which
  `<` follows more than 64 KiB of blanks within the first 1 MiB window. For the detector
  alone (`HtmlDetection.CutIndependenceExact`) there is no upper end.
* **A fetch that fails with a 200 is answered with a 403.** AsyncFetch::Done clears the
  headers of a 200 that failed before they were complete, so that the visitor gets an error,
  and sets 500 (`net/instaweb/http/async_fetch.cc:134-147`); but ApacheFetch then finds no
  type and refuses with 403 and "Missing Content-Type"
  (`pagespeed/apache/apache_fetch.cc:122-130`). `ApacheFetchTheorems.FailureAnswers` says
  which status every such failure is answered with: 403 if and only if it was a 200, or has
  no type and is neither 204 nor 304 (or was itself a 403).
* **A torn mapped body leaves a queued response short, and nothing aborts it.** When the
  borrow is torn under the copy, SimpleBufferedApacheFetch::WriteMapped returns false
  (`pagespeed/apache/simple_buffered_apache_fetch.cc:113-121`) and queues nothing; its Done
  looks at no result (lines 105-111), so the request thread may send headers that announce
  more. ApacheFetch aborts or poisons such a response.
  `BufferedMappedWrites.TornBodyIsDropped` is a run; `BufferedMappedWrites.WholeUnlessTorn`
  has the condition: the text performed is the text handed over if and only if no borrow of
  anything was torn.

## Model

| member | source | states |
|---|---|---|
| ProxyFetching.ProxyFetch.ScheduleQueueExecutionIfNeeded | pagespeed/automatic/proxy_fetch.cc:932-949 | queues one job unless one is queued, a flush runs or a lookup is out |
| ProxyFetching.ProxyFetch.PropertyCacheComplete | pagespeed/automatic/proxy_fetch.cc:951-984 | forgets the collector, hands it to the caller for deletion, and schedules if the parse has a sequence |
| ProxyFetching.ProxyFetch.SniffWrite | pagespeed/automatic/proxy_fetch.cc:986-1056 | drops, holds, starts the parse with what was held, or passes a write on |
| ProxyFetching.ProxyFetch.QueueText | pagespeed/automatic/proxy_fetch.cc:1059-1082 | queues a write in chunks of at most max(1, limit) bytes and schedules |
| ProxyFetching.ProxyFetch.QueueFlush | pagespeed/automatic/proxy_fetch.cc:1097-1106 | notes an origin flush if flushes are wanted at all, and schedules |
| ProxyFetching.ProxyFetch.QueueDone | pagespeed/automatic/proxy_fetch.cc:1146-1152 | notes Done with its result and schedules |
| ProxyFetching.ProxyFetch.ReleaseAtEnd | pagespeed/automatic/proxy_fetch.cc:1125-1135 | an all-blank document that succeeds is decided not to be HTML and released |
| ProxyFetching.ProxyFetch.FlushDone | pagespeed/automatic/proxy_fetch.cc:1164-1172 | ends the flush wait and schedules if anything is pending |
| ProxyFetching.ProxyFetch.FindForcedFlush | pagespeed/automatic/proxy_fetch.cc:1186-1202 | finds the least number of leading chunks that reach the limit |
| ProxyFetching.ForcedCountMeaning | pagespeed/automatic/proxy_fetch.cc:1194-1201 | that many chunks reach the limit, one fewer do not, and without a forced flush all of them do not |
| ProxyFetching.ProxyFetch.TakeQueued | pagespeed/automatic/proxy_fetch.cc:1182-1237 | takes the batch, decides flush and finish, and begins the flush wait |
| ProxyFetching.ProxyFetch.FinishLocked | pagespeed/automatic/proxy_fetch.cc:1275-1285 | clears Done, marks the fetch as finishing and detaches a collector still out |
| ProxyFetching.ChunksCarryText | pagespeed/automatic/proxy_fetch.cc:1066-1073 | the chunks of a write concatenate to it and are never empty or oversized |
| ProxyFetching.ChunksAreFull | pagespeed/automatic/proxy_fetch.cc:1066-1073 | and all but the last are full |
| ProxyFetching.BatchIsPrefix | pagespeed/automatic/proxy_fetch.cc:1204-1236 | a batch and what stays queued make up the queue; nothing stays without a forced flush; a flush holds the next batch off |
| ProxyFetching.BatchBound | pagespeed/automatic/proxy_fetch.cc:1183-1237 | with limit L and no origin flush followed a batch has fewer than 2L bytes, and a flush is forced exactly from L bytes on |
| PropertyCollecting.ProxyFetchPropertyCallbackCollector.RunPostLookupsAndCleanupIfSafe | pagespeed/automatic/proxy_fetch.cc:342-365 | deletes a detached collector, or runs the post-lookup tasks and completes a connected fetch |
| PropertyCollecting.ProxyFetchPropertyCallbackCollector.ExecuteDone | pagespeed/automatic/proxy_fetch.cc:306-340 | erases a lookup and is done after the last |
| PropertyCollecting.ProxyFetchPropertyCallbackCollector.ExecuteRequestHeadersComplete | pagespeed/automatic/proxy_fetch.cc:378-385 | marks the headers and cleans up |
| PropertyCollecting.ProxyFetchPropertyCallbackCollector.ExecuteConnectProxyFetch | pagespeed/automatic/proxy_fetch.cc:397-425 | connects, and completes the fetch if the lookups are done |
| PropertyCollecting.ProxyFetchPropertyCallbackCollector.ExecuteDetach | pagespeed/automatic/proxy_fetch.cc:453-475 | cancels every queued task and deletes the collector if it is done |
| PropertyCollecting.ProxyFetchPropertyCallbackCollector.ExecuteAddPostLookupTask | pagespeed/automatic/proxy_fetch.cc:483-494 | runs a task at once when lookups and headers are complete, else queues it |
| FetchRuns.StepKeeps | pagespeed/automatic/proxy_fetch.cc:932-1386 | every step of every party keeps the invariant of the fetch, of the collector and of the link between them |
| FetchRuns.RunKeeps | pagespeed/automatic/proxy_fetch.cc:932-1386 | so does every run |
| FetchInvariants.ParseStepKeeps | pagespeed/automatic/proxy_fetch.cc:1244-1271 | parsing a batch, asking for its flush, moving the idle alarm or going on to Finish keeps the fetch's invariant |
| FetchInvariants.FlushFinishedKeeps | pagespeed/automatic/proxy_fetch.cc:1164-1172 | a flush reported done was being waited for, and the queue wakes if it must |
| FetchInvariants.TaskMeansParsing | pagespeed/automatic/proxy_fetch.cc:1174-1184 | a task on the html sequence means a parse that has started, no lookup out, and a live fetch |
| LookupInvariants.DetachCancelsRest | pagespeed/automatic/proxy_fetch.cc:453-475 | Detach comes once; every task offered that has not run is cancelled, in order; a collector that is done is deleted with nothing left to call it, any other lives on |
| LookupInvariants.ConnectKeeps | pagespeed/automatic/proxy_fetch.cc:397-425 | Connect comes once, before any Detach and after the headers; if it completes the fetch the collector is gone with no task, lookup or post-lookup task left, else it lives on |
| LookupInvariants.LookupEndsKeeps | pagespeed/automatic/proxy_fetch.cc:276-304 | a lookup that is still out finds its collector alive |
| FetchRuns.CompletesAttached | pagespeed/automatic/proxy_fetch.cc:361-364 | only a collector that the fetch still points to completes it, after the parse has started |
| FetchTheorems.RunsAreSafe | pagespeed/automatic/proxy_fetch.cc:397-475 | in every reachable state every enabled step finds its objects alive and its DCHECKs true; the driver whose options ExecuteConnectProxyFetch reads lives; PropertyCacheComplete reaches only a live, unfinished fetch that has its driver |
| FetchTheorems.NoLostWakeup | pagespeed/automatic/proxy_fetch.cc:932-949 | pending work outside ExecuteQueued means a queued job, a flush under way or a lookup out; the job flag is exact, and there is one job or one flush, never both |
| FetchTheorems.CleanDestruction | pagespeed/automatic/proxy_fetch.cc:542-550 | each object is deleted at most once, the base fetch is told exactly with the deletion or the rejection, and at deletion nothing is queued, owed, armed or in flight |
| FetchTheorems.TellsBaseOnLastFinish | pagespeed/automatic/proxy_fetch.cc:1303-1336 | the base fetch is told by the second Finish of a parsed fetch, by the first of any other, and by the rejection of a request that got none |
| FetchTheorems.TellsWhatDoneSaid | pagespeed/automatic/proxy_fetch.cc:1146-1157 | and is told exactly what the origin's Done said, at most once |
| FetchTheorems.BytesConserved | pagespeed/automatic/proxy_fetch.cc:1183-1267 | what is parsed is always a prefix of what was written, and all of it when the parse is finished; a fetch that is not parsed has passed on all but what the detector holds |
| FetchTheorems.PassesOnExactly | pagespeed/automatic/proxy_fetch.cc:1113-1157 | in every run after Done a fetch that is neither parsed nor refused its body has passed on all that was written if and only if it succeeded, or the type was decided or never in question, or nothing was held |
| FetchTheorems.FailedUndecidedLosesHeld | pagespeed/automatic/proxy_fetch.cc:1125-1135 | a run in which a failing fetch of one blank loses it |
| FetchTheorems.BatchesBounded | pagespeed/automatic/proxy_fetch.cc:1183-1263 | the batch bound in every reachable state |
| FetchTheorems.ForcedFlushBegins | pagespeed/automatic/proxy_fetch.cc:1249-1263 | a batch that reached the limit or follows an origin flush flushes the driver, and no job is queued until that flush ends |
| FetchTheorems.OriginFlushFollowed | pagespeed/automatic/proxy_fetch.cc:1188-1190 | an origin flush that is followed puts everything queued before it into the batch that it flushes |
| FetchProgress.ParsesExactlyHtml | pagespeed/automatic/proxy_fetch.cc:986-1056 | in every reachable state the parse has started if and only if the response claims to be HTML, may be proxied and rewritten, and is judged HTML; with at most 64 KiB of leading blanks, if and only if its first other byte is `<` |
| FetchProgress.FlushIsOwed | pagespeed/automatic/proxy_fetch.cc:1097-1106 | an origin flush during the parse is owed, and something that will see to it is under way |
| FetchProgress.OwedUntilTaken | pagespeed/automatic/proxy_fetch.cc:1182-1237 | an owed flush stays owed until a batch is taken, which is flushed |
| FetchProgress.FlushReachesDriver | pagespeed/automatic/proxy_fetch.cc:1249-1263 | after such a batch the driver is flushed if and only if the batch was forced or somebody asked; else the wait ends at once |
| FetchProgress.IdleTextArmsAlarm | pagespeed/automatic/proxy_fetch.cc:1267-1356 | text parsed without a flush arms the idle alarm if one is wanted |
| FetchProgress.AlarmAsksForFlush | pagespeed/automatic/proxy_fetch.cc:1364-1386 | the alarm of an idle fetch has the next batch flush the driver |
| FetchTheorems.PostLookupTasksOnce | pagespeed/automatic/proxy_fetch.cc:441-494 | each post-lookup task accepted before Detach, also after the headers or after Connect, is run, cancelled or waiting, exactly once and in the order offered; none waits when lookups and headers are complete; none is left at deletion |
| FetchProgress.PostLookupTasksWait | pagespeed/automatic/proxy_fetch.cc:486-493 | a post-lookup task has run only when no lookup is out, the lookups are done and the headers complete |
| FetchProgress.RunsOnlyWhenComplete | pagespeed/automatic/proxy_fetch.cc:342-365 | no step runs one unless both hold after it |
| FetchTheorems.OptionsOutliveLookups | pagespeed/automatic/proxy_fetch.cc:276-290 | while a lookup is out and Detach is not called the collector and the fetch live, and the driver lives if and only if the request is not between the two calls of its rejection |
| FetchTheorems.RejectedRequestLosesOptions | pagespeed/automatic/proxy_fetch.cc:134-144 | a reachable state in which a lookup is out, Detach is not called, and the driver is gone |
| FetchTermination.StepShrinks | pagespeed/automatic/proxy_fetch.cc:1164-1271 | once the origin is done every step but the offer of another post-lookup task lowers the measure |
| FetchTermination.RunsEnd | pagespeed/automatic/proxy_fetch.cc:1164-1271 | so no run from there is longer than the measure and three steps more for each further offer, with any limit and a racing idle alarm |
| FetchTermination.FinishIsReached | pagespeed/automatic/proxy_fetch.cc:1273-1336 | some run from there goes to its end |
| FetchTermination.StuckIsDone | pagespeed/automatic/proxy_fetch.cc:1273-1336 | where no step is left but an offer, none is: both objects are deleted, the base fetch is told once, every byte is parsed or passed on but for what a failure left held, and every post-lookup task is dealt with |
| FetchTermination.DrainsAndEnds | pagespeed/automatic/proxy_fetch.cc:1364-1386 | every run after the origin is done is bounded in the same way and, where it stops, has deleted both objects once |
| HtmlDetection.HtmlDetector.ConsiderInput | pagespeed/automatic/html_detector.cc:36-81 | decides by the first byte that is no blank, or against HTML past 64 KiB, else holds the input |
| HtmlDetection.HtmlDetector.ReleaseBuffered | pagespeed/automatic/html_detector.cc:83-86 | gives what was held, once |
| HtmlDetection.HtmlDetector.ForceDecision | pagespeed/automatic/html_detector.cc:88-92 | decides as told and keeps what is held |
| HtmlDetection.DecisionIsFirstOtherByte | pagespeed/automatic/html_detector.cc:39-80 | with at most 64 KiB of leading blanks the decision is the first other byte's, however the stream is cut |
| HtmlDetection.FirstOtherByteDecides | pagespeed/automatic/html_detector.cc:41-69 | the same by the bytes: space, tab, CR, LF and the three of a byte order mark do not count, 0x3c decides for, any other against |
| HtmlDetection.CutIndependenceExact | pagespeed/automatic/html_detector.cc:71-77 | a stream is judged alike under every cut if and only if no `<` follows more than 64 KiB of blanks in it |
| HtmlInput.HtmlFlushWindow.AddTo | pagespeed/apache/html_flush_window.h:59-75 | hands the data on in pieces that fit the window, with a flush before the first piece after a full one |
| HtmlInput.HtmlFlushWindow.MakeRoom | pagespeed/apache/html_flush_window.h:62-69 | flushes a full window if that would release anything and says how much may follow |
| HtmlInput.InstawebContext.ProcessBytes | pagespeed/apache/instaweb_context.cc:327-367 | sniffs, then parses or puts out what was held and the input |
| HtmlInput.InstawebContext.Rewrite | pagespeed/apache/instaweb_context.cc:258-263 | gives plain input to the window |
| HtmlInput.InstawebContext.Flush | pagespeed/apache/instaweb_context.cc:266-276 | flushes a started parse and begins a new window if the flush releases anything |
| HtmlInput.InstawebContext.Finish | pagespeed/apache/instaweb_context.cc:306-318 | releases what is held into the output and finishes the parse |
| HtmlInputTheorems.Conserves | pagespeed/apache/instaweb_context.cc:306-367 | for any cuts, flushes and drains everything is parsed in order, or everything is put out unchanged |
| HtmlInputTheorems.FinishesParseOnce | pagespeed/apache/instaweb_context.cc:306-318 | a started parse is finished once, at the end, and nothing else reaches the driver of one that is not started |
| HtmlInputTheorems.WindowBoundsPieces | pagespeed/apache/html_flush_window.h:42-80 | with any CanFlush no piece exceeds the window, it is overrun only while the driver holds back, and since_flush counts what was parsed since the last releasing flush |
| HtmlInputTheorems.FlushesFallAtWindows | pagespeed/apache/html_flush_window.h:59-75 | when the driver never holds back the spans between flushes are the document's windows, however it was cut |
| OriginFlushes.OriginFlushesFall | pagespeed/apache/instaweb_context.cc:266-276 | once the parse has started and if the driver never holds back, each flush of the server begins a span where it comes, and the window flushes where a span is full |
| OriginFlushes.OriginFlushReachesDriver | pagespeed/apache/instaweb_context.cc:266-276 | a flush of a started parse always reaches the driver, and begins a new window if and only if the driver does not hold back; before that it does nothing |
| HtmlInputTheorems.JudgedAlikeExactly | pagespeed/apache/instaweb_context.cc:330-355 | a response is judged alike under every cut if and only if no `<` follows more than 64 KiB of blanks within the first window |
| HtmlInputTheorems.JudgedBy | pagespeed/apache/instaweb_context.cc:330-355 | outside that family it is HTML exactly when `<` follows at most 64 KiB of blanks |
| HtmlInputTheorems.CutDoesNotMatter | pagespeed/apache/instaweb_context.cc:239-264 | with any driver two cuts of one such response are both parsed to the same text or both put out as they are; if the driver never holds back, with flushes at the same bytes |
| BufferedFetching.SimpleBufferedApacheFetch.HandleHeadersComplete | pagespeed/apache/simple_buffered_apache_fetch.cc:90-94 | queues the headers |
| BufferedFetching.SimpleBufferedApacheFetch.HandleWrite | pagespeed/apache/simple_buffered_apache_fetch.cc:123-132 | joins a write at the back of the queue or starts one |
| BufferedFetching.SimpleBufferedApacheFetch.HandleFlush | pagespeed/apache/simple_buffered_apache_fetch.cc:134-139 | queues a flush |
| BufferedFetching.SimpleBufferedApacheFetch.HandleDone | pagespeed/apache/simple_buffered_apache_fetch.cc:105-111 | queues Done |
| BufferedFetching.SimpleBufferedApacheFetch.WaitForOp | pagespeed/apache/simple_buffered_apache_fetch.cc:79-87 | waits for arrivals while the queue is empty, then pops its front |
| BufferedFetching.SimpleBufferedApacheFetch.Wait | pagespeed/apache/simple_buffered_apache_fetch.cc:48-77 | returns, for every way operations arrive, having performed what was issued before Done |
| BufferedFetching.QueueRefinesLog | pagespeed/apache/simple_buffered_apache_fetch.cc:79-139 | in every interleaving performed, held and queued operations mean what was issued, with adjacent writes merged and empty ones dropped |
| BufferedFetching.ReturnsWhenAllPerformed | pagespeed/apache/simple_buffered_apache_fetch.cc:55-77 | at return the same text was performed, with headers and flushes at the same bytes of it |
| BufferedFetching.NoLostSignal | pagespeed/apache/simple_buffered_apache_fetch.cc:79-87 | the consumer sleeps only on an empty queue, and once Done is issued it can go on until it returns |
| BufferedFetching.MeaningMarks | pagespeed/apache/simple_buffered_apache_fetch.cc:123-132 | coalescing writes moves no other operation past a byte |
| BufferedFetching.QueueIsCoalesced | pagespeed/apache/simple_buffered_apache_fetch.cc:123-132 | however operations arrive no two writes wait next to each other |
| BufferedMappedWrites.WholeUnlessTorn | pagespeed/apache/simple_buffered_apache_fetch.cc:113-132 | when Wait returns the text performed is the text handed over, mapped bodies included, if and only if no copy of a non-empty span was torn; else it is shorter; for a HEAD request it is empty |
| BufferedMappedWrites.TornBodyIsDropped | pagespeed/apache/simple_buffered_apache_fetch.cc:113-121 | a run in which the headers go out and Wait returns without a byte of a torn body |
| MappedRegions.AliasedBytesHold | pagespeed/apache/apache_mmap_bucket.h:29-36 | after a renewal that lets a read keep aliasing, whatever happens, no wrap commits and no byte changes for a read margin or a lease, whichever is shorter |
| MappedRegions.CopyThenVerify | pagespeed/apache/apache_mmap_bucket.cc:87-125 | whatever happens between the bytes of a copy, a borrow found intact after it means every byte copied is the one borrowed |
| MappedRegions.VerifyThenCopyFails | pagespeed/kernel/base/mapped_shared_string.h:231-241 | the other order would prove nothing |
| MappedRegions.AdmittedThenAliased | pagespeed/apache/apache_fetch.cc:43-49 | a serve admitted past the emit margin whose first read renews within one second is not de-aliased by that read |
| MappedRegions.EmitMarginNeeded | pagespeed/apache/apache_fetch.cc:43-49 | an emit margin below two seconds less a nanosecond would not give that |
| MmapBuckets.MmapBucketData.Destroy | pagespeed/apache/apache_mmap_bucket.cc:38-44 | drops a reference and releases the pin with the last |
| MmapBuckets.AprBucket.CopyOut | pagespeed/apache/apache_mmap_bucket.cc:94-125 | morphs the bucket over a copy made under any weather, renews after it, and drops the reference; without memory nothing changes |
| MmapBuckets.AprBucket.Read | pagespeed/apache/apache_mmap_bucket.cc:127-158 | renews, then fails, copies out, or returns the aliased window |
| MmapBuckets.AprBucket.Poison | pagespeed/apache/apache_mmap_bucket.cc:77-85 | releases what is held and makes the bucket torn, with its length kept |
| MmapBuckets.AprBucket.Setaside | pagespeed/apache/apache_mmap_bucket.cc:174-180 | copies out or poisons, and never reports an error |
| MmapBuckets.ReadOutcome | pagespeed/apache/apache_mmap_bucket.cc:127-158 | exactly when a read aliases, hands out bytes of its own, wants memory or fails, from the bucket, the region and the allocation |
| MmapBuckets.SetasideOutcome | pagespeed/apache/apache_mmap_bucket.cc:174-180 | a bucket set aside is poisoned if and only if it was, or aliased and memory was wanting or the region moved |
| MmapBuckets.AprBucket.Split | pagespeed/apache/apache_mmap_bucket.cc:182-191 | siblings share the data, which counts both; a torn bucket is not split |
| MmapBuckets.AprBucket.Copy | pagespeed/apache/apache_mmap_bucket.cc:182-191 | a copy shares the data, which counts it; a torn bucket is not copied |
| ZeroCopyServes.ReadGivesOriginal | pagespeed/apache/apache_mmap_bucket.cc:127-158 | a read that succeeds returns the original's window, privately or shielded from wraps for the margin |
| ZeroCopyServes.SetasideKeeps | pagespeed/apache/apache_mmap_bucket.cc:160-180 | a bucket set aside keeps its window and no longer aliases; if the borrow was torn it is poisoned, else its bytes are the original's or it is poisoned |
| ZeroCopyServes.ReadAllGivesOriginal | pagespeed/apache/apache_mmap_bucket.h:29-36 | what a burst has read of any number of buckets stands for the original's next bytes, and stays right to the burst's end |
| ZeroCopyServes.ExactOrAborted | pagespeed/apache/apache_writer.cc:173-216 | over whole serves the client gets a prefix of what was borrowed, and all of it if the brigade was consumed without failure |
| CalmServes.CalmBurstServesAll | pagespeed/apache/apache_mmap_bucket.h:29-36 | with no wrap declared, deferred or forced, a burst that plans every bucket and byte and ends in time empties the brigade without failure, and the client has the whole original |
| CalmServes.CalmServeIsWhole | pagespeed/apache/apache_writer.cc:173-210 | so a serve that is left alone is consumed |
| ZeroCopyServes.PinConserved | pagespeed/apache/apache_mmap_bucket.cc:30-44 | in every serve the shared count is the number of buckets that alias, in the brigade and aside; the pin is live for each of them and is released once, with the last |
| ZeroCopyServes.CopyReadsOriginal | pagespeed/apache/apache_mmap_bucket.h:50-52 | after any continuation of a serve, failed or not, a read that succeeds of a copy held aside gives its window of the original |
| BucketPools.PinOutlivesAliases | pagespeed/apache/apache_mmap_bucket.h:49-52 | for any order of splits, copies, reads, setasides and destroys of any buckets, copies of copies and failed ones among them, the shared count is the number that alias, and the pin is released once, exactly when none does |
| BucketPools.SiblingsReadOriginal | pagespeed/apache/apache_mmap_bucket.cc:87-93 | in every such run a read that succeeds of a bucket with no failed read behind it gives its window of the original, privately or shielded from wraps, whatever became of its siblings |
| ZeroCopyServes.PoisonFailsReads | pagespeed/apache/apache_mmap_bucket.cc:46-75 | the reads of a burst that reach a poisoned bucket, wherever it stands, fail |
| ZeroCopyServes.PoisonFailsServe | pagespeed/apache/apache_mmap_bucket.cc:46-85 | once a bucket that is not empty is poisoned, after every continuation the serve has failed or still holds that bucket |
| ZeroCopyServes.EmptyPoisonMayGo | pagespeed/apache/apache_mmap_bucket.cc:46-85 | an empty poisoned bucket is the exception: with everything else sent the serve ends well, and the client has the whole original |
| ZeroCopyServes.TornCopyReadsAgain | pagespeed/apache/apache_mmap_bucket.cc:144-153 | a read repeated after a torn copy would hand out other bytes, so a read error must end the serve |
| ApacheFetching.ApacheWriter.OutputHeaders | pagespeed/apache/apache_writer.cc:218-250 | sends headers, at most once, with the length if it was set |
| ApacheFetching.ApacheWriter.WriteMappedAliased | pagespeed/apache/apache_writer.cc:173-210 | aborts unless the brigade was consumed without an error |
| ApacheFetching.ApacheFetch.SendOutHeaders | pagespeed/apache/apache_fetch.cc:109-182 | the response as it is, the refusal for a missing type, or nothing and no output after |
| ApacheFetching.ApacheFetch.HeadersComplete | pagespeed/apache/apache_fetch.cc:99-106 | sends the headers of a streaming fetch at once |
| ApacheFetching.ApacheFetch.HandleWrite | pagespeed/apache/apache_fetch.cc:375-383 | drops, buffers or writes |
| ApacheFetching.ApacheFetch.Write | net/instaweb/http/async_fetch.cc:78-92 | completes the headers first and writes nothing for an empty text or a HEAD request |
| ApacheFetching.ApacheFetch.Flush | pagespeed/apache/apache_fetch.cc:385-392 | passes a flush on only when streaming and not squelched |
| ApacheFetching.ApacheFetch.Done | net/instaweb/http/async_fetch.cc:128-168 | completes the headers, as an error if the fetch failed before it had any |
| ApacheFetching.ApacheFetch.WriteMapped | pagespeed/apache/apache_fetch.cc:207-373 | aliases, copies with verification, aborts a committed response or poisons an uncommitted one |
| ApacheFetching.ApacheFetch.Wait | pagespeed/apache/apache_fetch.cc:444-451 | a buffered fetch sends its headers and then its body, if headers went out |
| ApacheFetchTheorems.MappedKeeps | pagespeed/apache/apache_fetch.cc:301-372 | a mapped write adds exactly its bytes if it is not torn, and otherwise aborts after a prefix of them or poisons a buffered response |
| ApacheFetchTheorems.ClientSees | pagespeed/apache/apache_fetch.cc:99-452 | for every order of calls: one set of headers before anything else, nothing for an error not to be handled, the refusal alone without a type, else the whole body; an abort after a prefix, or an error without any of it, if and only if a mapped write that was not dropped was torn, as the region, the copy and the serve decide |
| ApacheFetchTheorems.FirstHeaders | pagespeed/apache/apache_fetch.cc:112-166 | which headers go out: status, type, Cache-Control, no-cache by default, length, by the status given and how the fetch ended |
| ApacheFetchTheorems.FailureAnswers | net/instaweb/http/async_fetch.cc:128-151 | the status that a fetch which fails before its headers is answered with |
| ApacheFetchTheorems.FlushesReachClient | pagespeed/apache/apache_fetch.cc:385-392 | every flush asked of a streaming response reaches the client, after the bytes it was asked after |
| ApacheFetchTheorems.StatusTellsHandler | pagespeed/apache/apache_fetch.cc:112-180 | after Wait, status_ok holds exactly when a response below 400 was sent, and response_committed exactly when anything was |
| ApacheFetchTheorems.BufferingIsInvisible | pagespeed/apache/apache_fetch.cc:99-182 | unless something is torn the client gets the same headers and body whether the fetch buffers or streams |
| LocationFixing.IsOneOfOurParams | pagespeed/automatic/proxy_fetch.cc:627-634 | finds a parameter that selects the same setting |
| LocationFixing.SameNameIsEquivalence | pagespeed/automatic/proxy_fetch.cc:619-625 | selecting the same setting is an equivalence |
| LocationFixing.SettingsAlike | pagespeed/automatic/proxy_fetch.cc:592-617 | the two prefixes are one; option names are compared without case, the bare prefix and the filters list exactly |
| LocationFixing.OtherNames | pagespeed/automatic/proxy_fetch.cc:592-617 | two header names select one setting each in any letter case, and any other name only itself |
| LocationFixing.ParseText | pagespeed/kernel/base/string_multi_map.h:203-216 | parsing what was written out gives the parameters back |
| LocationFixing.NormalizedQueryWithoutOurs | pagespeed/automatic/proxy_fetch.cc:639-656 | the sorted list of the decoded parameters that are not ours |
| LocationFixing.AlikeMeaning | pagespeed/automatic/proxy_fetch.cc:636-656 | two queries compare equal if and only if they hold the same decoded parameters besides ours, each as often |
| LocationFixing.NormalizedCounts | pagespeed/automatic/proxy_fetch.cc:639-656 | a pair stands in the normalized list as often as parameters that are not ours unescape to its name and value |
| LocationFixing.AlikeExactly | pagespeed/automatic/proxy_fetch.cc:636-656 | so two queries compare equal if and only if all those numbers agree |
| LocationFixing.CollectMissing | pagespeed/automatic/proxy_fetch.cc:710-723 | writes out those of ours that the Location lacks |
| LocationFixing.FixLocation | pagespeed/automatic/proxy_fetch.cc:684-740 | changes a Location exactly when it stays on the origin, does not canonicalise and lacks one of ours |
| LocationFixing.FixUpMeaning | pagespeed/automatic/proxy_fetch.cc:698-737 | path, fragment and parameters stay, in order; exactly the missing ones of ours follow; then every setting of ours is there |
| LocationFixing.LeftAloneExactly | pagespeed/automatic/proxy_fetch.cc:684-740 | a Location stays as it is if and only if it leads nowhere or off the origin, lacks none of our settings, or leads to the same place with the same other parameters by name, value and number |
| LocationFixing.FixUpOnce | pagespeed/automatic/proxy_fetch.cc:704-723 | what was fixed stays as it is under every later fix-up, for any other request and wherever its path leads from there |
| LocationFixing.FixUpIdempotent | pagespeed/automatic/proxy_fetch.cc:704-723 | fixing any Location twice for one request changes no more than fixing it once |
| LocationFixing.FollowedHasOwnQuery | pagespeed/automatic/proxy_fetch.cc:733 | where something is inserted the resolved URL's query is the Location's own, so the separator is right |
| Strings.SplitStringPieceToVector | pagespeed/kernel/base/string_util.cc:129-144 | the non-empty pieces between separators |
| Strings.SplitAppend | pagespeed/kernel/base/string_util.cc:129-144 | splitting distributes over a separator |
| Strings.TrimMeaning | pagespeed/kernel/base/string_util.cc:455-486 | trimming takes the blanks off both ends and no more |
| CacheControlHeaders.NoteCacheControlLimits | pagespeed/apache/header_util.cc:281-297 | adds the limits that a value states to those noted |
| CacheControlHeaders.LimitsMeaning | pagespeed/apache/header_util.cc:286-296 | a limit is stated exactly when some element names the directive |
| CacheControlHeaders.AppendedLimit | pagespeed/apache/header_util.cc:324-329 | appending a directive adds its limit and loses none |
| CacheControlHeaders.MergedLimits | pagespeed/apache/header_util.cc:319-329 | the merged value states exactly the generated value's limits and the stated ones |
| CacheControlHeaders.MergedAddsMissingOnly | pagespeed/apache/header_util.cc:324-329 | a directive is appended if and only if it is stated and the generated value lacks it |
| CacheControlHeaders.LinesMeaning | pagespeed/apache/header_util.cc:311-318 | the lines collected are the values of all Cache-Control fields, in any letter case |
| CacheControlHeaders.OthersMeaning | pagespeed/apache/header_util.cc:330-332 | and the fields kept are all others, each as often as before |
| CacheControlHeaders.RequestRec.DisableCacheControlHeader | pagespeed/apache/header_util.cc:301-333 | one Cache-Control line is left, which begins with the generated value and is as strict as it and every line of both tables; all other headers stay |

## Left out

- Mirroring to original_content_fetch_: held blanks are written to the mirror twice, so conservation is claimed for the parser and the pass-through stream only.
- The status code written to the property cache on Detach, experiments, cookies and the header edits of HandleHeadersComplete other than Location.
- CreateNewProxyFetch: only its two outcomes are modelled, the fetch that starts and the request that is rejected.
- FetchTheorems.PostLookupTasksOnce: a task offered after ConnectProxyFetch with no lookup out may meet a deleted collector, and one offered after Detach fails a DCHECK; both are outside the model.
- ProxyFetch's trusted input flag, and a StartParse or SetupForHtml that fails after the response was found to be HTML: both are one configuration value, fixed for the fetch.
- ExecuteConnectProxyFetch's FastFinishLookup: a lookup may end at any time anyway.
- RewriteDriver: parsing and rewriting are a record of what the driver was asked; when it flushes at once and when it holds events back are arbitrary. What it writes to the output is not modelled.
- Gzip inflation in InstawebContext.Rewrite, and FlushWouldSendEditableHeaders.
- Leases disabled (kLeasesOff): there is no byte guarantee then.
- Sending after a read that failed: a read error ends the serve (see TornCopyReadsAgain for why it must). What a bucket with a failed read behind it would hand out is not claimed.
- Serving a brigade of copies: a serve sends the one body in order; of copies it is claimed what their reads give, not in which order somebody sends them.
- ZeroCopyServes.ExactOrAborted: a burst that outlasts the read margin or the lease is cut off in the model; the guarantee is for bursts that do not.
- ApacheFetching.ApacheWriter.WriteMappedAliased: in the source success means that the brigade was left empty, which includes buckets that a filter set aside to send later. Here a serve goes on to the end of those, and whole means that every byte was sent: a poisoned bucket among them, which the core output filter aborts, counts as an abort of the write.
- The output-filter walk and SettleOutputFilters: whether the chain is verbatim is a given of each mapped write.
- Other references to the mapping than the bucket's: each serve counts its own.
- ApacheFetching.ApacheFetch.SendOutHeaders: Date, nosniff, cookies stripped by the writer, and downstream header filters are not modelled; of the headers only status, presence of a type, origin of Cache-Control and length are.
- ApacheFetching.ApacheFetch.Wait: the scheduler loop is not modelled; Wait begins where done_ is true.
- SimpleBufferedApacheFetch::WriteMapped as a method: what the calls put on the queue is a function of them, and the refusal that it returns to its caller is not used.
- Condition variables: a producer's signal wakes a waiting consumer in the same step, and spurious wakeups may happen.
- LocationFixing.FixLocation: URL parsing is reduced to the query and fragment of the Location's text; resolving a path, and unescaping, are arbitrary functions, and percent-escaping by the URL library is not modelled.
- CacheControlHeaders.RequestRec.DisableCacheControlHeader: the generated value is an arbitrary string, and both header tables exist.
- Statistics, logging, thread-synchronizer points and the once-per-process diagnosis.

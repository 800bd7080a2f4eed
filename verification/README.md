# waxtap in Dafny

A model of the parts of waxtap that are hard to get right, with proofs. The centre is the
transfer engine of `download/`: parallel chunk workers over one refreshable source, a
resumable sequential reader and a block-cached random-access reader, all on one ladder of
retries and refreshes. Beside it stand the guest and adopted identity rotation, the playlist
run, and a set of self-contained algorithms: the chapter remap, the JSON object scanner,
SponsorBlock clustering, format ranking, playlist enumeration, the cross-client download loop,
and the base64 and xtags decoders.

`dafny verify dfyconfig.toml` checks everything.

## How it is built

- Code that changes state is a class with those fields (`SharedSource.Download`,
  `Ladder.Downloader`, `ResumableReader.Reader`, `RangeReader.Ranged`, `Identity.Session`,
  `Identity.Client`, `Enumerate.Playlist`) or a method with the source's loop. Its contract
  says what came of it in terms of the resource, of a one-pass specification or of an order.
- Concurrency is a step machine over the same decisions: `RenewalRuns`, `ChunkWorkers`,
  `IdentityRuns`, `PlaylistRun`. A run is any sequence of events the machine allows; the
  results hold of every run, so of every schedule, server and cancellation.
- `ChunkFile` is the worker's code with its loop, `ChunkWorkers` the machine of all workers,
  `ChunkRuns` and `ChunkTermination` what its runs come to.
  `ChunkReplay` connects them: every execution of the code is a run of the machine's worker
  on that span, with the others seen as moves of the shared source. `IdentityReplay` does the
  same for the calls of `Identity.Client` and the machines of `IdentityRuns`.
- What happened is told from ghost records beside the code: every request with its tick, Source
  and generation, every Source by generation, every reply opened, every block's bytes. In the
  machines it is told from the events of the run.
- The outside is a value consulted by tick: what the network did with a request, what the
  refresh callback answers, what sibling workers did meanwhile, when the caller canceled.
  Nothing about it is fixed except what is listed next.

## What is taken as given

- All Sources of one download name the same bytes, and a positive ContentLength is their
  length. The facade only accepts a refresh that finds the same encoding
  (`youtube_source.go:470-473`).
- A reply labels its own bytes truthfully (sections 14.4 and 15.3.7 of RFC 9110): a
  Content-Length is the body's, a Content-Range names the body's span, a 206 has one
  (`ByteRange.UnstatedSpanIsNotChecked` shows what would be accepted without), and a bounded
  200 carries the slice or the whole resource.
- An open-ended query-parameter request is answered from its start. `checkRangedLength` cannot
  see otherwise when no Content-Range comes back. The Range header needs no such assumption.
- A 403 or 410 reaches the downloader as a reply, unless a 403 asks to wait, which is a rate
  limit (`internal/httpx/httpx.go:360-368`). A request fails with the cancellation only when its
  context has been canceled.
- A body read hands over bytes or ends.
- The keeps of a cut are in order, apart and inside the source, and a crossfade fits into each
  (`CutRange.Cut.Valid`), as `Keeps` and `ValidateCrossfade` in `internal/cutrange/ranges.go` have it.
- encoding/base64, protowire, utf8, strconv.ParseInt and the sorts are written out as their
  documentation has them.

## What was found

- `resumableReader.learn` takes the Content-Length of the first reply for the length of the
  stream. A first reply may be a 206 that is only a part of an open-ended request's range, and
  HeaderRange.Validate accepts it. The stream is then reported complete after that part.
  `TruncationIsReportedComplete` shows it for every resource of two bytes or more and every
  proper front of it. The total is wrong if and only if the Source stated no length and the
  first reply to state one came back at offset zero with a Content-Length short of the resource
  (`TotalVerdict`, over any run of replies); `MisleadingHeaders` says how the headers of such a
  reply look. `Reader.Read` carries this into every run of the reader. With no length known at
  all, end of file is all there is to go by.
- Under NoFallback the comment at `youtube_source.go:799-804` calls the second attempt of the
  attested WEB context the same attempt, not a client switch. The cooldown is looked at once
  before the retry and again inside `acquireNext`; when a sibling arms it in between, the retry
  is made by the client chain. `RetrySwitchesClient` is a job in which this happens.
  `AcquireAndDownload` proves when: the second transfer is by the attested context again if and
  only if no cooldown is armed at the second look (`AcquireLoop.Alone`).
- The comment at `chapters.go:46-48` has a chapter dropped when its content was entirely removed.
  With a crossfade a chapter of which something was kept can go as well
  (`KeptChapterIsDropped`): it goes if and only if no more of it was kept than the joins it
  runs over take off (`DroppedWithinFades`). In an overlap of two keeps the chapter in force may
  change too (`OverlapChangesTheChapter`): two instants are heard at once, and the output tells
  the chapter of the later one if and only if a chapter starts between the join and it
  (`OverlapVerdict`). Outside the overlaps it never changes (`SoloInstantKeepsItsChapter`).

## Model

| member | source | states |
|---|---|---|
| `ByteRange.ContentRangeReadsBack` | download/rangestrategy.go:146-174 | any satisfied Content-Range a server may write, with or without a complete length, is read back as the span it states |
| `ByteRange.StatedSpanDecides` | download/rangestrategy.go:53-124 | from the header's text to the verdict: a 206 that states its span is accepted exactly when it is the span asked for and a stated length fits it |
| `ByteRange.AcceptedSliceIsExact` | download/rangestrategy.go:53-124 | a truthful reply that passes Validate for a bounded request has exactly the requested slice as its body, under both dialects |
| `ByteRange.AcceptedTailStartsAtOffset` | download/rangestrategy.go:53-118 | a truthful reply accepted for an open-ended request is a front of the resource from the requested offset on |
| `ByteRange.HonouredRequestIsAccepted` | download/rangestrategy.go:50-124 | an origin that sends the slice and says so is never turned away |
| `ByteRange.HonouredResumeIsAccepted` | download/rangestrategy.go:50-118 | nor is one that answers an open-ended request with the rest, or a front of it, from the offset |
| `ByteRange.IgnoredRangeIsCaught` | download/rangestrategy.go:82-124 | a 200 that carries the whole of a longer resource is rejected as an ignored range |
| `Fetching.OpenedBodyIsRequested` | download/download.go:198-238 | whatever the exchange, the bytes of an opened body are a front of the bytes requested |
| `Fetching.FullReplyDeliversEverything` | download/download.go:198-238 | a reply that is accepted and arrives whole delivers every requested byte |
| `Fetching.RefusedIffTurnedDown` | download/download.go:226-237 | for every exchange: the request asks for a refresh if and only if the status is 403 or 410, told apart; neither is ever an ordinary status, and any other but 200 and 206 is |
| `SharedSource.Download.constructor` | download/download.go:262-264 | a new shared source is at generation zero with no refresh behind it |
| `SharedSource.Download.NoteDelivered` | download/download.go:266-273 | only the delivered count moves, and never down |
| `SharedSource.Download.Renew` | download/download.go:371-411 | the whole new state and the error, per outcome; the callback's answer is in force after a success for the current generation, and nothing else ever replaces the Source; success leaves the caller's generation behind; the invariants hold |
| `SharedSource.SuccessRaisesGeneration` | download/download.go:345-411 | a renewal advances the generation by at most one and then puts the answer in force; an error, or a call for an older generation, leaves the Source and the generation alone; a success is always past the generation asked about |
| `RenewalRuns.RenewalDiscipline` | download/download.go:242-411 | in every interleaving the generation counts the successful refreshes and stays within maxRef, refreshes never overlap, and at most noProgressLimit not caused by a 410 succeed at one delivered count |
| `RenewalRuns.SourceInForce` | download/download.go:275-280 | in every interleaving the Source in force is the last one the callback answered with, or the first Source if it never did; generation k has the k-th answer; every delivery is counted |
| `RenewalRuns.BailIsEarned` | download/download.go:380-395 | from the log of refreshes, exactly when a renewal is declined: for lack of progress when the limit was used up at the bytes delivered now, never for a 410, and otherwise when the budget is used up |
| `RenewalRuns.RenewIsEnterThenLeave` | download/download.go:371-411 | the one-call renewal and the two-step machine come to the same state |
| `Ladder.Downloader.FetchRetrying` | download/stream.go:186-230 | whatever the siblings do, at most maxChunkRetries + 1 + maxRef requests are made, in order, each with the Source of its generation; a 403 or 410 asks for a renewal: the next request is at a later generation and spends no retry, or the renewal failed for a reason, and only a declined 403 is retried then; a rate limit, an ignored bounded range and a cancellation are never retried; what is reported is what the last request came to, or what its renewal failed with, or the cancellation, and never a 403 or 410; what opens is the front of what was asked for; giving up means retries spent, a fatal error or cancellation |
| `ResumableReader.LearnedTotalIsTrueUnlessPartial` | download/stream.go:232-252 | the learned total is the resource's length if and only if the first reply's Content-Length, where it is used, is |
| `ResumableReader.PartialFirstReplyVerdict` | download/stream.go:232-252 | when a partial first reply read to its end is wrongly taken for the whole, exactly |
| `ResumableReader.TruncationIsReportedComplete` | download/stream.go:129-135 | for every resource of two bytes or more and every proper front of it, a truthful 206 of that front is accepted and ends the stream as complete |
| `ResumableReader.KnownIffStated` | download/stream.go:232-252 | after any run of replies a total is known if and only if the Source or one of the replies stated one: a complete length in a Content-Range at any offset, or a Content-Length at offset zero |
| `ResumableReader.TotalVerdict` | download/stream.go:232-252 | after any run of replies a known total is the resource's length if and only if it was not learned, with no length stated, from a reply at offset zero whose Content-Length is short |
| `ResumableReader.MisleadingHeaders` | download/stream.go:232-252 | a first reply that states its span and a complete length misleads exactly when the span ends before the length |
| `ResumableReader.Reader.constructor` | download/stream.go:75-85 | a new reader is at offset zero with the Source's length |
| `ResumableReader.Reader.LearnTotal` | download/stream.go:232-252 | the reply goes on record and the total stays what the replies so far make of it; a length stated here is never missed |
| `ResumableReader.Reader.OpenNext` | download/stream.go:173-184 | the body opened at the offset holds what comes next of the resource; the reply is put on record and is what the total was learned from; a failure has its reason; opens per offset stay bounded |
| `ResumableReader.Reader.Pull` | download/stream.go:116-124 | a read hands over the next bytes of the resource, moves the offset by as many and counts them as delivered |
| `ResumableReader.Reader.GuardStall` | download/stream.go:157-171 | progress resets the stall count, otherwise it grows, and passing maxChunkRetries is reported |
| `ResumableReader.Reader.EndBody` | download/stream.go:126-148 | an ended body ends the stream, fails it, as it does when the caller has canceled, or leaves strictly fewer resumes at this offset |
| `ResumableReader.Reader.Turn` | download/stream.go:108-154 | one turn delivers the next bytes or gets nearer to an end |
| `ResumableReader.Reader.Read` | download/stream.go:100-155 | the bytes handed out are always the front of the resource, and count as delivered; end of file after the Source or any reply stated a length means all of it, unless the first reply to state one misled the reader; a failure means that the ladder for the rest from here was given up, the stall limit was passed at this offset, or the caller canceled, and sticks; a call with room makes progress or ends |
| `ResumableReader.Reader.Drain` | download/file.go:100-108 | copying the reader always ends, with an error that has its reason or at the end of file, which is the whole resource unless no length was stated or the first one misled; at most maxChunkRetries + 2 opens succeed at any one offset |
| `RangeReader.Ranged.constructor` | download/ranged.go:135-143 | a new reader holds nothing and has fetched nothing |
| `RangeReader.Ranged.FetchOnce` | download/ranged.go:279-288 | one request brings a front of the block, goes on record and is counted with its bytes; a failure is a ladder given up |
| `RangeReader.Ranged.FetchBlock` | download/ranged.go:273-303 | a block comes whole or not at all, within maxChunkRetries + 1 requests; the counters stay the number of requests on record and the sum of what each brought, so a block that comes counts with at least its length; it fails only when the ladder was given up, the body was short on every one of those requests, or the caller canceled |
| `RangeReader.Ranged.Hold` | download/ranged.go:264-269 | the cache keys stay the duplicate-free eviction queue of at most 16, oldest first out, each block equal to its slice |
| `RangeReader.Ranged.BlockAt` | download/ranged.go:234-271 | the block's slice; a held block costs nothing and any other counts with its bytes; with the budget taken nothing more comes off the wire and a block not held is over budget; it fails only so or as fetching that block fails, and that sticks unless it is this view's cancellation; bytes fetched, those the requests on record brought, stay below the budget plus one block's retries |
| `RangeReader.Ranged.CopyBlock` | download/ranged.go:216-227 | a turn copies a non-empty stretch of the resource and touches nothing else in the buffer |
| `RangeReader.Ranged.ReadAt` | download/ranged.go:189-232 | the same bytes, count and end of file as a flat read of the resource; it fails only for a cancellation, which nothing held averts, or a block that could not be read; a terminal failure is repeated; with the budget taken only held blocks are read; the rest of the buffer is untouched |
| `RangeReader.OpenRange` | download/ranged.go:108-154 | a reader is handed out only with its first block held, and refused only as fetching that block fails; without a length the source is refused before any request |
| `ChunkPlan.PlanChunks` | download/file.go:21-32 | the spans tile the file: disjoint, in order, covering, none empty or over the chunk size, all but the last full |
| `ChunkPlan.NthsTile` | download/file.go:21-32 | consecutive multiples of the chunk size, clamped at the end, tile the file |
| `ChunkFile.CopyAt` | download/file.go:219-227 | a copy fills a front of the span with the bytes the sink takes and leaves the rest of the file alone |
| `ChunkFile.CopyBody` | download/file.go:219-236 | all of the span with no read error is success; anything short, or a read error even with the last bytes, is a retry; only right bytes are written either way |
| `ChunkFile.Request` | download/file.go:179-245 | one request with the Source of its generation, settled: by a renewal with the generation past the one used, by a retry where one may follow, or by the end, with the span full and counted as delivered or with a reason |
| `ChunkFile.TakeTurn` | download/file.go:179-261 | one request, with the backoff before a paid retry, goes on record and ends in a free retry only after a renewal, in a paid retry only with budget left, or ends the loop with the span full or a reason |
| `ChunkFile.FetchChunkToFile` | download/file.go:173-262 | only the span is written, only with right bytes; success means it is full; requests are bounded under arbitrary siblings, and each is made with the Source of its generation; a 403 or 410 asks for a renewal: the next request is at a later generation and spends no retry, or the renewal failed for a reason, and only a declined 403 is retried then; what is reported is what the last request came to, and never a 403 or 410; failure has its reasons; what it does is a run of the machine's worker on that span |
| `ChunkReplay.Renews` | download/download.go:371-411 | the machine's two-step renewal leads its worker exactly where the one-call renewal does |
| `ChunkRuns.FileIsAlwaysTrue` | download/file.go:110-262 | in every interleaving each file byte is a hole or the resource's byte, and over the whole run no span is claimed twice |
| `ChunkRuns.NilMeansComplete` | download/file.go:110-171 | when downloadChunks returns nil every span was completed and the file is the resource |
| `ChunkRuns.FirstFailureIsReported` | download/file.go:121-170 | in every interleaving the error is that of the first worker to report, by the order of the reports, and that worker had not been canceled unless the caller had; all later ones had been; a cancellation comes out exactly when the caller canceled |
| `ChunkRuns.FirstFailureStays` | download/file.go:121-127 | the first error set is the one at the end of any continuation |
| `ChunkRuns.CancellationStopsTheRest` | download/file.go:110-143 | once a worker has failed or the caller has canceled, in any continuation no worker takes up another span and none begins another retry |
| `ChunkRuns.RequestsUseTheirGeneration` | download/file.go:181-191 | in every interleaving each request goes to the Source that the callback's answers give the generation it was read with, which is no less than the free retries behind it |
| `ChunkRuns.RequestsAreBounded` | download/file.go:179-261 | no worker makes more than maxChunkRetries + 1 + maxRef requests for one span |
| `ChunkTermination.RunIsBounded` | download/file.go:110-262 | a run has at most as many steps as its measure |
| `ChunkTermination.NeverStuck` | download/file.go:131-151 | while a worker has not returned, some worker can act, whoever holds the mutex |
| `ChunkTermination.EveryDownloadEnds` | download/file.go:110-262 | a parallel download makes finitely many steps and only stops by returning |
| `Identity.Session.constructor` | youtube/session.go:63-73 | a session starts synthetic and unbound |
| `Identity.Session.LearnVisitorData` | youtube/session.go:80-91 | a response's visitorData is taken unless it is empty or the old value is adopted or bound, which is never replaced |
| `Identity.Session.AdoptVisitorData` | youtube/session.go:93-99 | the supplied visitorData is pinned |
| `Identity.Session.BindPOToken` | youtube/session.go:101-104 | binding changes the binding only |
| `Identity.Session.ResetPOBinding` | youtube/session.go:106-110 | unbinding leaves an adopted source adopted |
| `Identity.Client.constructor` | youtube/bootstrap.go:140-144 | a new client is at generation zero |
| `Identity.Client.ResolveAdopted` | youtube/client.go:240-280 | a provider is asked at most once per generation, a failure is not cached unless permanent, and the identity comes with its generation |
| `Identity.Client.RotateAdopted` | youtube/client.go:370-405 | the session of the generation named is reported, and no other, exactly when it can be named; only an accepted report retires it |
| `Identity.Client.BootstrapVisitorData` | youtube/bootstrap.go:97-114 | the cached guest identity was loaded in the generation returned with it |
| `Identity.Client.RotateGuest` | youtube/bootstrap.go:183-195 | the cached guest identity goes exactly when its own generation is named |
| `Identity.Client.RotateIdentity` | youtube/bootstrap.go:146-196 | true means the identity of the named generation is no longer in force; nothing changes unless that generation is current |
| `IdentityRuns.OneIdentityPerGeneration` | youtube/client.go:240-280 | in every interleaving all adopted sessions of one generation carry one identity |
| `IdentityRuns.SessionsKeepTheirIdentity` | youtube/session.go:80-99 | an adopted session keeps its identity and stamp through any further run |
| `IdentityRuns.EachGenerationRetiresOnce` | youtube/client.go:370-405 | rotations take effect once per generation, in order |
| `IdentityRuns.StaleRotationIsInert` | youtube/bootstrap.go:163-171 | a rotation naming an older generation changes nothing |
| `IdentityRuns.RotationRetiresWhatItNamed` | youtube/client.go:370-405 | a rotation that takes effect retires the identity in force in the generation it named, never its replacement |
| `IdentityRuns.GuestGenerations` | youtube/bootstrap.go:97-196 | a cached guest identity belongs to the current generation, guests stamped alike start alike, each generation is retired once |
| `IdentityReplay.Resolve` | youtube/client.go:240-280 | a client's call is a run of the machine, whose extraction gets the session and the stamp handed out |
| `IdentityReplay.RotateSession` | youtube/client.go:370-405 | a rotation is a run of the machine: the provider is told what the machine reports, true means the generation named is retired there, false that none was |
| `IdentityReplay.BootstrapGuest` | youtube/bootstrap.go:97-114 | a bootstrap is a run of the guest machine, which issues what was handed out |
| `IdentityReplay.RotateGuestIdentity` | youtube/bootstrap.go:183-195 | a guest rotation is a run of the guest machine, with the same generations retired |
| `IdentityReplay.ClientKeepsOneIdentity` | youtube/client.go:240-280 | so whatever was done with a client, the extractions it served in one generation started from one identity, the one in force for the current generation, and exactly the generations before it are retired |
| `PlaylistRun.Add` | playlist_download.go:222-231 | exactly one is added in all, no count falls, and which one rises is told by how the entry ended |
| `PlaylistRun.CountsByKind` | playlist_download.go:222-231 | each count is the number of outcomes of its kind, and downloads and their failures make up the attempts |
| `PlaylistRun.Tally` | playlist_download.go:213-235 | the reached entries in order, their counts, and a remainder that makes up the enumeration |
| `PlaylistRun.RunStaysWithinLimits` | playlist_download.go:126-211 | in every interleaving downloads in flight stay within conc, starts within a non-zero maxDownloads, and a slot holds its own entry's outcome |
| `PlaylistRun.OutcomesAreWhatHappened` | playlist_download.go:151-208 | in every run an entry's outcome tells how its own download ended, or what BuildRequest returned in the call made for it |
| `PlaylistRun.ResultAccountsForEveryEntry` | playlist_download.go:62-76 | the outcomes are a prefix of the playlist, counts plus Remaining equal Enumerated, attempts equal starts, and only cancellation or the cap ends early |
| `PlaylistRun.NeverStuck` | playlist_download.go:151-208 | while the run has not returned, something other than a cancellation can happen |
| `PlaylistRun.EveryRunEnds` | playlist_download.go:126-211 | a playlist run makes at most six steps an entry and six more, in every interleaving, and only stops by returning |
| `CutRange.MapInstant` | internal/cutrange/ranges.go:105-120 | the loop gives the mapped instant the results below speak of |
| `CutRange.MapTimeIsKeptLessFades` | internal/cutrange/ranges.go:100-120 | an instant maps to the kept duration before it, less one crossfade for every join it has reached |
| `CutRange.TimePassesIffKept` | internal/cutrange/ranges.go:100-120 | without crossfade output time passes between two instants exactly when some instant between them was kept |
| `CutRange.EarlierMapsBefore` | internal/cutrange/ranges.go:100-120 | nothing earlier maps behind a kept instant that is past the overlap at the start of its keep, with any crossfade |
| `CutRange.LaterMapsAfter` | internal/cutrange/ranges.go:100-120 | everything later maps strictly behind an instant that is in one keep only |
| `CutRange.TwinsMapAlike` | internal/cutrange/ranges.go:100-120 | an instant in the overlap at the end of a keep and its counterpart in the next keep map to one instant |
| `CutRange.AfterTail` | internal/cutrange/ranges.go:100-120 | what comes after such an instant maps behind it unless it lies between the end of the keep and that counterpart, exactly |
| `Chapters.Removed` | chapters.go:22-35 | the instants inside the source that no keep holds, and no others |
| `Chapters.SortByStart` | chapters.go:60-64 | sorted, with chapters of one start in their given order |
| `Chapters.RemapChapters` | chapters.go:59-90 | for until-next chapters in any order and a cut without crossfade, the chapter in force at every kept instant is in force at the mapped instant of the output; in general the remap of the stably sorted list, of which the results below speak |
| `Chapters.ChapterInForceIsPreserved` | chapters.go:46-58 | with until-next chapters in any order and no crossfade the chapter in force at a kept instant is the one in force at the mapped instant |
| `Chapters.SoloInstantKeepsItsChapter` | chapters.go:46-58 | with any crossfade the same holds at every kept instant outside the overlaps |
| `Chapters.OverlapChangesTheChapter` | chapters.go:46-58 | a concrete cut with a crossfade where it fails inside an overlap |
| `Chapters.OverlapVerdict` | chapters.go:46-58 | in an overlap the output tells the chapter of the later of the two instants heard if a chapter starts between the join and it, and of the earlier one if not |
| `Chapters.RemappedIsSorted` | chapters.go:59-90 | without crossfade the remapped list is sorted like the one it came from |
| `Chapters.InForceIsLatest` | chapters.go:60-64 | in a list of any order the chapter in force is the latest to start, the last listed among those that share the start |
| `Chapters.SortKeepsLatest` | chapters.go:60-64 | a stable sort never changes which chapter is in force |
| `Chapters.DroppedIffNothingKept` | chapters.go:76-82 | without crossfade a chapter with audio of its own goes exactly when none of it was kept |
| `Chapters.DroppedWithinFades` | chapters.go:76-82 | with any crossfade it goes exactly when no more of it was kept than the joins it runs over take off |
| `Chapters.OwnEndHoldsTheSame` | chapters.go:84-87 | a chapter with an end of its own holds, after the remap, the mapped instants of those it held, and keeps an end of its own |
| `Chapters.KeptChapterIsDropped` | chapters.go:46-48 | a concrete chapter with a kept second that is dropped |
| `Chapters.RemapLines` | chapters.go:108-117 | every line of a set is kept as the result below has it, or counted as dropped |
| `Chapters.KeptLinesAreShifted` | chapters.go:108-117 | of a set exactly the lines whose instant the cut did not take are left, in order, each at the mapped instant with its text |
| `Chapters.RemapSyncedLyrics` | chapters.go:92-127 | kept and dropped lines add up to all lines and no set is left empty |
| `JsonScan.ScanObject` | youtube/playerresponse.go:560-588 | the loop finds the end the recursive account of balance gives |
| `JsonScan.ExtractFrom` | youtube/playerresponse.go:541-589 | the object after the next marker, or none, as the results below speak of it |
| `JsonScan.ExtractedIsBraced` | youtube/playerresponse.go:541-545 | what is cut out is a stretch of the page that begins and ends in a brace |
| `JsonScan.ObjectIsBalanced` | youtube/playerresponse.go:560-588 | for every RFC 8259 object, whatever its strings hold and whatever follows, the scan ends on its last byte |
| `JsonScan.ObjectIsExtracted` | youtube/playerresponse.go:541-589 | from a marker and a brace-free gap exactly the object is returned, with the index just past it |
| `JsonScan.FindObject` | youtube/chapters.go:86-111 | the scan past decoys always ends, with the first of the page's successive objects that is accepted, or with none when every one was rejected |
| `SponsorBlock.SortSegments` | sponsorblock/client.go:330-335 | a sorted permutation, in place |
| `SponsorBlock.BestOfCluster` | sponsorblock/client.go:356-364 | the loop keeps the member that the two results below describe |
| `SponsorBlock.BestIsMaximal` | sponsorblock/client.go:356-373 | the best is a member no member outranks: a lock is never passed over, and among equals in that no votes are |
| `SponsorBlock.BestIsFirst` | sponsorblock/client.go:356-364 | it is the first of the most authoritative: it outranks every member before it |
| `SponsorBlock.MergeSorted` | sponsorblock/client.go:337-353 | one survivor per region of the sorted list |
| `SponsorBlock.BestPerOverlap` | sponsorblock/client.go:322-354 | sorts in place, keeps the segments, returns one survivor per region |
| `SponsorBlock.RegionsAreComponents` | sponsorblock/client.go:337-353 | regions are exactly the connected components of the overlap relation |
| `SponsorBlock.SurvivorsAreBestAndApart` | sponsorblock/client.go:322-354 | a survivor is a member of its component that none in it outranks; survivors are in order and pairwise disjoint |
| `SponsorBlock.EveryComponentSurvives` | sponsorblock/client.go:322-354 | each component has a survivor |
| `FormatSelect.LessKey` | format/select.go:262-270 | the lexicographic order on keys |
| `FormatSelect.PreferencesInOrder` | format/select.go:132-188 | the comparator in terms of the formats, the weightiest preference first: original, layout, downmix, codec, dynamics, fewer channels, tier, Opus, bitrate |
| `FormatSelect.BetterFollowsKey` | format/select.go:132-188 | the comparator and the gate's key agree: a greater key wins, and within a key the tier, Opus and bitrate decide |
| `FormatSelect.BetterIsStrictWeakOrder` | format/select.go:132-188 | the comparator is irreflexive and transitive, and so is its incomparability |
| `FormatSelect.BestAmong` | format/select.go:117-130 | the first maximum among the kept candidates |
| `FormatSelect.TierUsable` | format/select.go:226-260 | true exactly when something is kept and every candidate of the greatest key has a known tier |
| `FormatSelect.BestWith` | format/select.go:111-115 | the unique winner, or none when nothing is kept |
| `FormatSelect.WinnerIsInTopClass` | format/select.go:226-260 | the winner is in the class the gate inspects |
| `FormatSelect.GateIgnoresLowerKeys` | format/select.go:226-228 | a candidate of a lower key never changes the gate's decision |
| `FormatSelect.LowerKeysNeverMatter` | format/select.go:111-188 | adding or removing a candidate of a lower key never changes the winner |
| `Enumerate.Playlist.Append` | youtube/client.go:1000-1036 | what a page adds, and whether the cap or the stop cut it, in terms of the one-pass listing; taken whole, the cap was not met before its last item |
| `Enumerate.TakePage` | youtube/client.go:892-917 | a page taken whole extends the listing of all items so far; a page that meets the cap met it before its last item or exactly with it |
| `Enumerate.EnumeratePages` | youtube/client.go:849-926 | the entries are those of one pass over all items, however paged; a continuation is handed out exactly when the cap is met with the last item of a page that is not the last, and names the page after it |
| `Enumerate.ContinuationResumes` | youtube/client.go:918-924 | resuming at a continuation gives the rest of the uncapped listing, nothing lost or repeated |
| `Enumerate.IndexIsPosition` | youtube/client.go:1000-1034 | an entry's index is its position among the playlist's videos |
| `AcquireLoop.AllDeliveriesIncomplete` | youtube_source.go:891-915 | some delivery was recorded and every recorded one was incomplete |
| `AcquireLoop.HasIncomplete` | youtube_source.go:881-889 | some recorded cause is an incomplete delivery |
| `AcquireLoop.ExtractExcluding` | youtube/client.go:453-552 | the first attempt of the chain, not excluded, that does not merely fail decides: it extracts, meets the rate limit or breaks the chain; the chain ends otherwise only without a session, canceled, or with every attempt failed, and exhausted only when all are excluded |
| `AcquireLoop.AcquireNext` | youtube_source.go:608-639 | the turn comes to the attested context exactly when it is configured, not cooling down and not skipped, and otherwise to the first attempt of the chain that does not merely fail; acquired, blamed or stopped as that attempt does in the world |
| `AcquireLoop.StepIsDetermined` | youtube_source.go:608-639 | what that contract allows is one step only, unless the caller canceled |
| `AcquireLoop.NextPass` | youtube_source.go:676-699 | one more pass exactly when one is left, fallback is allowed, something was delivered and RotateIdentity, asked then about the latest identity, reports success; otherwise the job ends with its promises kept |
| `AcquireLoop.AcquireAndDownload` | youtube_source.go:655-846 | ends; every transfer and failure on record is of the attempt its turn came to, given what was excluded by then, and went as the world had it; no turn is left out; nothing but incomplete transfers and failures is followed by another turn; at most two passes, once per pass for an attempt and twice in all for the attested context; a second pass only with nothing left to try after all-incomplete transfers, on a rotation of the latest identity that succeeded; the result is the one that the record calls for |
| `AcquireLoop.OneResult` | youtube_source.go:655-846 | a record allows one result: a completed transfer must be delivered, a local failure must be reported, and so on |
| `AcquireLoop.RetrySwitchesClient` | youtube_source.go:799-809 | under NoFallback, with a cooldown armed between the two looks at it, the retry of the attested context is made by a profile of the chain |
| `Base64.DecodeTolerant` | youtube/sabr_stream.go:375-393 | the loop gives the first accepted reading of the trimmed text, of which the results below speak |
| `Base64.VariantReadsBack` | youtube/sabr_stream.go:382-387 | each RFC 4648 variant reads back what it encoded |
| `Base64.VariantsAgree` | youtube/sabr_stream.go:382-390 | variants that accept a text agree on it, so the order of attempts cannot matter |
| `Base64.TolerantReadsBack` | youtube/sabr_stream.go:375-393 | any bytes in any variant are read back, with white space around and line breaks inside |
| `Base64.EncodedReadsBack` | youtube/sabr_stream.go:375-393 | the plain round trip for every byte string and variant |
| `Utf8Text.Utf8IsEncodedText` | youtube/xtags.go:71-73 | the valid strings are exactly the encodings of scalar values |
| `Protowire.ValueIsSkipped` | youtube/xtags.go:32-38 | an unknown field, a group with nested groups included, is skipped exactly, whatever follows |
| `Protowire.MessageReadsBack` | youtube/xtags.go:26-44 | the wanted fields of an encoded message are read back among any others |
| `Xtags.ReadPair` | youtube/xtags.go:55-82 | the last key and last value of a well-formed message, none if it is malformed or not UTF-8 |
| `Xtags.ReadRole` | youtube/xtags.go:25-53 | the first non-empty acont value of a well-formed message |
| `Xtags.AudioContent` | youtube/xtags.go:14-53 | the role behind base64, as the round trip below speaks of it |
| `Xtags.PairReadsBack` | youtube/xtags.go:55-82 | an encoded pair mixed with other fields reads back as its last key and value |
| `Xtags.XtagsReadBack` | youtube/xtags.go:14-53 | for any UTF-8 pairs mixed with any other fields, in any base64 variant, the first non-empty acont value comes back, or none |

## Left out

- Chapters.OverlapVerdict: says nothing of a keep so short that its two overlaps meet
- CutRange.MapInstant: how removals are merged into keeps, and the effective crossfade after rendering, are not part of this model
- AcquireLoop.AcquireAndDownload: ReportPlayerContext, warnings, the pinned encoding and client substitution do not steer the loop and are left out
- IdentityRuns.GuestGenerations: says nothing of sessions left with synthetic visitorData after a failed bootstrap, nor of the cache's expiry
- JsonScan.FindObject: decoding the object and choosing among its markers is a parameter
- SponsorBlock.SortSegments: an insertion sort stands for sort.Slice; only that it gives a sorted permutation is used
- Chapters.SortByStart: an insertion sort stands for slices.SortStableFunc; only that it is stable and sorts is used
- Enumerate.EnumeratePages: an item has one shape; items with two renderers at once, the retries of the first page and cancellation between pages are left out
- AcquireLoop.ExtractExcluding: which of several errors is reported; only the class that steers the loop is kept
- ResumableReader.Reader.Read: an error other than the end of file that comes exactly at the end is a resume like any other; nothing more is said about how it ends
- Ladder.Downloader.FetchRetrying: a per-chunk timeout is one more failed exchange; backoff is a tick in which the caller may cancel; a callback that fails because the caller canceled is a failed callback
- ChunkRuns.FirstFailureIsReported: the failure that is kept as message detail beside the caller's cancellation
- 64-bit overflow of offsets and of `start + chunkSize` near the largest int64; integers are unbounded
- HTTP transport, header and query construction, temp files and rename, progress callbacks and their order, logging, warnings
- cookies and the jar; a jar is there or not
- RangeReader.WithContext views and the mutex that serialises them; one reader with one context is modelled
- ToFile's choice between chunks and a stream, ToWriter, Stream and prime
- white space and letter case outside ASCII in headers and codec names
- panics of callbacks (recovered in the playlist run), the OnItem callback
- the selectors above bestWith, eligibility and codec listing
- the audio engine, tag writing, the CUE split, option validation, sidecar clients, thumbnails

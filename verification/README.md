# NagameTV: verified models of its state machines

NagameTV plays and records Japanese television. Several of its parts are small pieces of code with
large state spaces: they race workers, threads and pages, or replace a simple computation by a fast
one. This project models those parts in Dafny and proves what they are meant to guarantee.

Each part is modelled in two layers. A functional layer says what one operation does to a value
(`Begin`, `Poll`, `Record`, `Receive`, ...) and lets a run be any sequence of such operations and of
what workers, threads, servers, timers and users do in between. The theorems are about that layer
and range over every run. A class beside it has the source's own fields and methods, updates them in
place with the source's branches and loops, and each method is proved to do exactly what the
functional operation says.

| file | part of the program |
|---|---|
| `Blur.dfy` | the comment shadow: two rounds of running-sum box blur over flat byte buffers |
| `Fetching.dfy` | one EPGStation catalogue fetch, with the page correction of a refresh |
| `Library.dfy` | the EPGStation library: requests, workers, session and probe |
| `Fallback.dfy` | program information for the recording being played |
| `Frames.dfy` | which video frame and overlay a screenshot captures |
| `History.dfy`, `Lists.dfy`, `Decimal.dfy` | the viewing history document and its recording keys |
| `SaveQueue.dfy` | the screenshot save queue |
| `BroadcastPresentation.dfy` | what is shown for a data broadcast page |
| `BroadcastSession.dfy` | the host's session protocol |
| `BroadcastTimer.dfy` | the activation timer and the browser's timeouts |
| `BroadcastPage.dfy`, `BroadcastOwner.dfy` | the page with its session, socket and timer, and the owner that loads it |
| `BroadcastWorld.dfy` | page and owner together, with calls and restart requests on their way |
| `BroadcastActivation.dfy`, `BroadcastRestart.dfy`, `BroadcastShown.dfy`, `BroadcastKnowledge.dfy` | what becomes of requests, restarts, the shown state and what a page knows over whole runs |
| `Channels.dfy` | channel list parsing and order, selection, remote keys |
| `Comments.dfy` | the bounded comment history and its change announcements |
| `Common.dfy` | options, results, 64-bit helpers, background jobs |

`dafny verify dfyconfig.toml` checks everything.

## Main results

- The running-sum blur computes exactly the naive windowed average, pass by pass, for every size and
  spread. The filter creates no ink, never raises the peak, is monotone, looks no further than twice
  the spread, keeps the value inside solid areas, and needs no margin beyond twice the spread.
- In every interleaving the EPGStation library works on exactly the request outstanding from the last
  action. What it publishes answers that request, a withdrawn probe never yields a session, and
  equal session generations mean the same connection. An opened server that answers is published
  unless somebody opens again or cancels, and what a recording's own fetch reports is shown.
- Whatever a screenshot can capture has the overlay of the swapped render cycle and the last frame
  mapped by then, with a complete account of where both came from, all in the present generation;
  and whatever has such an account can be captured.
- What the viewing history saves after any run can be loaded again exactly when every source still on
  the list was last recorded with something valid. A recording key never names two sources, and both
  lists are the most recent distinct entries.
- The save queue accounts for every byte and every capture, exactly once, and shutdown empties it.
- A data-broadcast request is delivered at most once and only under stated conditions, and exactly
  known events make it or end it, across timers, lost sockets, calls in flight, restarts and reloads.
  What a page knows and shows is read off the frames of its connection alone.
- Channel parsing does not depend on the response's order exactly when services with equal ids
  agree; the comment history is the end of an append-only log with ids that are never reused.

## Where the code does less than its description

- A page that asks for a restart names the revision it knows, and the owner drops a request of an
  earlier one. So the page is stranded, waiting and delivering nothing until the owner reloads it for
  another reason, when an activation and a restart request cross on their way: either the owner
  activates while the restart request travels, or the page asks while the activation travels.
  `StrandedExactly` gives the exact condition, and `ActivationStrands` and `RestartStrands` a run for
  each.
- A programme map of a manual-start service takes the pending request before the browser handles the
  map. If handling fails on a loaded page, the state is not settled afterwards. `ReceivedUnsettles`
  gives the exact condition for one message, `PresentationSettled` for every moment of a run, and
  `FailureCanUnsettle` a run.
- The channel list is described as independent of the response's order. It is whenever services with
  the same id describe the same channel; otherwise the first one wins, and the order shows
  (`OrderFreeIffIdsAgree`).
- A record is accepted whether or not its identity and position satisfy the rules for a saved
  document, while saving validates the whole document. The catalogue passes on a recording's start
  time without the check that it is positive, so such a recording keeps everything from being saved
  until it is recorded validly or drops off the list (`RecordCanSpoil`, `RecordCanRepair`); the exact
  condition is `RunValidIff`.
- Recording again with the same identity and position is ignored, so it leaves the entry where it is:
  a record brings its source to the front exactly when it is accepted or the source is there already
  (`FrontExactly`, `RepeatStaysBehind`). The order is that of the records that were accepted.

## Model

| member | source | states |
|---|---|---|
| Blur.SlideLine | rust/src/screenshot_painter.h:116-121 | one line of the running sum writes, at every pixel of the line, the average of its full window, whatever the spread and the line's length, and touches no other cell of the buffer |
| Blur.HorizontalPass | rust/src/screenshot_painter.h:115-122 | the horizontal pass leaves the naive row averages of alpha in scratch |
| Blur.VerticalPass | rust/src/screenshot_painter.h:123-130 | the vertical pass leaves the naive column averages of scratch in alpha |
| Blur.Blur | rust/src/screenshot_painter.h:109-131 | after both rounds alpha holds the four composed naive averages of what it held: twice, the mean over the rows around of the means along each row |
| Blur.BoxColumnsAt | rust/src/screenshot_painter.h:123-130 | a pixel of the column filter is the average of the window around it in its own column |
| Blur.RoundAt | rust/src/screenshot_painter.h:114-131 | one round gives each pixel the mean, over the rows around it, of the means around it in those rows |
| Blur.ShadowIsMean | rust/src/screenshot_painter.h:114-131 | two rounds give the whole image of those means, twice |
| Blur.ShadowOfDot | rust/src/screenshot_painter.h:114-131 | an image one pixel wide whose shadow only the column passes can spread |
| Blur.StoredByte | rust/src/screenshot_painter.h:116-120 | each quotient that is stored fits its byte |
| Blur.BoxPeak | rust/src/screenshot_painter.h:116-120 | no average exceeds the largest pixel of the line |
| Blur.WindowFitsLine | rust/src/screenshot_painter.h:116-119 | a running sum is never negative and at most 255 per pixel of the line, so lines up to 8421504 pixels fit a 32-bit int |
| Blur.BoxLineMass | rust/src/screenshot_painter.h:115-122 | averaging a line never increases its total |
| Blur.InkTranspose | rust/src/screenshot_painter.h:114-131 | totals by rows and by columns agree, which carries the line result over to the column passes |
| Blur.ShadowMass | rust/src/screenshot_painter.h:114-131 | total alpha never grows, pass after pass through both rounds |
| Blur.ShadowPeak | rust/src/screenshot_painter.h:114-131 | the darkest shadow pixel is no darker than the darkest mask pixel |
| Blur.ShadowMonotone | rust/src/screenshot_painter.h:114-131 | a pointwise lighter mask gives a pointwise lighter shadow |
| Blur.ShadowLocal | rust/src/screenshot_painter.h:114-131 | a shadow pixel depends only on mask pixels within twice the spread on each axis |
| Blur.ShadowMargin | rust/src/screenshot_painter.h:114-131 | where the mask is empty within twice the spread the shadow is empty |
| Blur.MarginSuffices | rust/src/screenshot_painter.h:94-97 | with a margin of twice the spread around its content, a mask has the same shadow on its own grid as on any larger one, and no shadow outside it |
| Blur.ShadowSolid | rust/src/screenshot_painter.h:114-131 | deep inside a solid area the shadow keeps the mask's value |
| Fetching.LastOffset | rust/src/epgstation.rs:296 | the offset of the last page: on a page boundary, with the last row on it, and 0 for an empty list |
| Fetching.FetchPages | rust/src/epgstation.rs:288-321 | the worker asks what the specification says in that order, and reports its answer or failure: a fetch that is served reports exactly its page, query and connection |
| Fetching.Exchange.Ask | rust/src/epgstation/client.rs:173-220 | one query is sent; a connected access keeps its connection and any other opens one to that server |
| Fetching.FetchAnswers | rust/src/epgstation.rs:288-321 | a reported page is for the same server and keyword, at the requested offset unless a refresh corrected it, over the requested connection |
| Fetching.RefreshCorrection | rust/src/epgstation.rs:295-320 | a refresh from a page boundary makes at most two queries and publishes only a page that exists for the total it comes with |
| Fetching.PublishedPageWasAsked | rust/src/epgstation.rs:288-321 | the rows published are the answer to the last query sent, unless there are none |
| Fetching.RefreshFailure | rust/src/epgstation.rs:295-320 | a refresh fails if and only if a query it sends is refused or the list shrank again below the corrected page |
| Fetching.AskedExactly | rust/src/epgstation.rs:288-321 | a second query is sent exactly when a refreshed page has vanished from a list that has recordings, and asks for the last page of the same server and keyword |
| Fetching.FailureExactly | rust/src/epgstation.rs:288-321 | a fetch of either mode fails if and only if a query it sends is refused or the list shrank again below the corrected page; a replacing fetch that is served succeeds |
| Fetching.ReportExactly | rust/src/epgstation.rs:294-320 | a successful fetch reports the last page served, its server, keyword and offset, and the connection given or opened with its cookie |
| EpgLibrary.WorksOnLatest | rust/src/epgstation.rs:465-628 | after any run the library works on exactly the request outstanding from the last open, page move, refresh or cancellation |
| EpgLibrary.StepTracks | rust/src/epgstation.rs:553-628 | each event changes what the library works on exactly as it changes the outstanding request |
| EpgLibrary.PublishedAnswersLatest | rust/src/epgstation.rs:583-615 | what a poll publishes in any run answers the outstanding request, the newest one made |
| EpgLibrary.OpenedIsPublished | rust/src/epgstation.rs:465-628 | in any run after an accepted opening without another opening or a cancellation, with its worker served, the request stays underway until a poll publishes the first page the server gave for it |
| EpgLibrary.UnderwayComes | rust/src/epgstation.rs:583-615 | and with the workers finished the next poll starts that worker or publishes its answer |
| EpgLibrary.PollPublishes | rust/src/epgstation.rs:598-615 | an answer that is ready is published whole by the next poll, which leaves the library idle |
| EpgLibrary.OpenOutcome | rust/src/epgstation.rs:465-505 | an opening is accepted exactly for a server address and a keyword of at most 256 characters, and then asks for the first page, with a login, over the connection at hand or anonymously |
| EpgLibrary.NextOutcome | rust/src/epgstation.rs:525-552 | the page 50 recordings on is asked for exactly when the shown page has recordings and more follow |
| EpgLibrary.PreviousOutcome | rust/src/epgstation.rs:530-552 | the page 50 recordings back is asked for exactly when the shown one is not the first |
| EpgLibrary.TurningBack | rust/src/epgstation.rs:525-552 | going back from the next page asks for the page one came from |
| EpgLibrary.RefreshOutcome | rust/src/epgstation.rs:506-524 | exactly an idle library with a catalogue asks for the same page again, and keeps what it shows |
| EpgLibrary.RevisionExactly | rust/src/epgstation.rs:553-628 | views are told of a change exactly when the catalogue is emptied for a new request or a request has ended |
| EpgLibrary.OnlyPollPublishes | rust/src/epgstation.rs:553-615 | a catalogue is only ever emptied or replaced by the ready answer of a poll, and every change is a new revision |
| EpgLibrary.RequestsCounted | rust/src/epgstation.rs:465-582 | exactly the actions that replace or withdraw a request are numbered |
| EpgLibrary.NewWorkerWaits | rust/src/epgstation.rs:583-595 | a catalogue worker starts only when every earlier one has finished |
| EpgLibrary.ErrorFollowsRequests | rust/src/epgstation.rs:506-628 | an error is shown from the failure of a request until the next request is made |
| EpgLibrary.SessionChangeClears | rust/src/epgstation.rs:406-412 | every change of session clears the thumbnails once |
| EpgLibrary.ProbeEstablishesWanted | rust/src/epgstation/verification.rs:19-90 | after any run, the session a probe establishes is with the server last accepted for verification and not withdrawn since |
| EpgLibrary.VerifyOutcome | rust/src/epgstation.rs:369-405 | a probe is accepted exactly when enabled, with a server, a network, no session, an idle library and no probe but a retiring one, and then that server is sought |
| EpgLibrary.ProbeOutcome | rust/src/epgstation/verification.rs:60-90 | a probe that succeeded gives a session of a new generation, and one that failed changes neither |
| EpgLibrary.ProbeReports | rust/src/epgstation/client.rs:221-232 | a probe asks its server anonymously and succeeds, with a connection to it, exactly when that answers |
| EpgLibrary.ClosingCloses | rust/src/epgstation/verification.rs:52-60 | closing ends any probing, keeps track of the worker that has yet to stop and changes nothing else |
| EpgLibrary.ClosedForGood | rust/src/epgstation/verification.rs:52-60 | once closed, probing stays closed and gives no session |
| EpgLibrary.LoadedMeansRefresh | rust/src/epgstation.rs:598-615 | when an answer is published, a catalogue is still loaded if and only if the job was a refresh, and thumbnails are cleared exactly for refreshes and new sessions |
| EpgLibrary.FailureKeepsCatalogue | rust/src/epgstation.rs:616-622 | a failed fetch keeps what was loaded, reports the error and leaves the library idle |
| EpgLibrary.StepKeepsInv | rust/src/epgstation.rs:369-628 | every action, poll and worker completion keeps the coherence of operation, catalogue, session, probe and workers |
| EpgLibrary.BeginKeepsInv | rust/src/epgstation.rs:553-568 | starting or queueing a replacing request keeps that coherence |
| EpgLibrary.ReachableSound | rust/src/epgstation.rs:369-628 | at every moment of every run at most one catalogue worker and one probe run, a loaded catalogue has the session of its server and connection, a queued request has an empty catalogue, and an active probe means idle and no session |
| EpgLibrary.GenerationNamesServer | rust/src/epgstation.rs:406-428 | two moments of a run with equal session generation and a session have the same server, and the same connection |
| EpgLibrary.RunGeneration | rust/src/epgstation.rs:465-628 | the generation never decreases, and while it stays the session stays |
| EpgLibrary.TwoPollsSuffice | rust/src/epgstation.rs:583-628 | with all workers finished, two polls bring the library to rest |
| EpgLibrary.Library.constructor | rust/src/epgstation.rs:348-358 | a new library is idle, empty and without a session |
| EpgLibrary.Library.CancelProbe | rust/src/epgstation/verification.rs:39-51 | a running probe retires with nothing to follow it |
| EpgLibrary.Library.CloseProbe | rust/src/epgstation/verification.rs:52-60 | closing withdraws the probe and accepts no further one, keeping coherence |
| EpgLibrary.Library.VerifyForReservations | rust/src/epgstation.rs:369-405 | a probe starts or is queued exactly under the source's guards, and the answer says whether it was |
| EpgLibrary.Library.PollReservationVerification | rust/src/epgstation.rs:406-412 | a finished probe sets the session, bumps the generation and clears thumbnails; a retired one lets its successor start |
| EpgLibrary.Library.BeginRequest | rust/src/epgstation.rs:553-568 | the catalogue is emptied and the request starts now or once the old worker has stopped |
| EpgLibrary.Library.ReconnectFor | rust/src/epgstation.rs:477-491 | the probe is withdrawn, and a session that is not reused is dropped under a new generation |
| EpgLibrary.Library.OpenServer | rust/src/epgstation.rs:465-505 | opening follows its specification, refusing unparsable addresses and long keywords without a change |
| EpgLibrary.Library.RefreshCatalogue | rust/src/epgstation.rs:506-524 | a refresh starts only when idle with a loaded catalogue, which it keeps |
| EpgLibrary.Library.NextPage | rust/src/epgstation.rs:525-529 | the next page is requested when there is one |
| EpgLibrary.Library.PreviousPage | rust/src/epgstation.rs:530-534 | the previous page is requested when there is one |
| EpgLibrary.Library.CancelRequest | rust/src/epgstation.rs:569-582 | request, queued request and probe are all withdrawn |
| EpgLibrary.Library.PollWorker | rust/src/epgstation.rs:583-628 | a poll follows its specification and reports the server whose catalogue it published |
| ProgramFallback.ShowsCurrentRecording | rust/src/epgstation/program.rs:141-186 | in every interleaving the information shown is the active recording's seed or its own fetch's report, never another recording's or an earlier activation's |
| ProgramFallback.ViewerSeesCurrent | rust/src/epgstation/program.rs:187-205 | whatever is presented as a recording's own information belongs to the recording being played, and only when the broadcast has none |
| ProgramFallback.FetchedIsShown | rust/src/epgstation/program.rs:141-205 | at any moment of any run information is held if and only if it is the active recording's seed or, without one, what its own taken worker reported; and that is what the viewer sees when the feature is on and the broadcast has none |
| ProgramFallback.EveryRecordingIsFetched | rust/src/epgstation/program.rs:141-186 | with a network, an active recording without a seed always has its fetch pending, running or done |
| ProgramFallback.PollTakesPending | rust/src/epgstation/program.rs:174-186 | a poll leaves a pending request alone while a worker runs, and otherwise starts its fetch or, without a network, gives it up |
| ProgramFallback.RunFollows | rust/src/epgstation/program.rs:141-186 | the same from any state that follows the active request |
| ProgramFallback.OneFetchPerActivation | rust/src/epgstation/program.rs:156-186 | job and pending request belong to the active recording, at most one worker runs, and no activation gets a second fetch |
| ProgramFallback.ActivationsExactly | rust/src/epgstation/program.rs:141-155 | a new activation is made exactly by each change of recording; configuring the same one again leaves everything as it is |
| ProgramFallback.PendingIsFetched | rust/src/epgstation/program.rs:174-179 | a pending request starts its fetch as soon as old workers have finished |
| ProgramFallback.ConfigureKeepsInv | rust/src/epgstation/program.rs:141-155 | changing the recording keeps that ownership |
| ProgramFallback.PollKeepsInv | rust/src/epgstation/program.rs:156-186 | polling keeps that ownership |
| ProgramFallback.Fallback.Follow | rust/src/epgstation/program.rs:141-155 | a new recording retires the job, shows its seed or queues its fetch; the same recording changes nothing |
| ProgramFallback.Fallback.PollWorker | rust/src/epgstation/program.rs:156-186 | a poll takes a finished worker's report and starts the pending fetch as specified |
| PresentedFrames.CaptureProvenance | rust/src/screenshot_native.rs:198-205 | in every interleaving a capturable pair has the overlay staged when the swapped cycle's sync began, and the frame last mapped by then, probed in the present generation and mapped on the thread of a running sync |
| PresentedFrames.CaptureExactly | rust/src/screenshot_native.rs:198-205 | a pair can be captured if and only if events of the run give it such a provenance |
| PresentedFrames.AcceptedExactly | rust/src/screenshot_native.rs:458-470 | a map counts if and only if it is a successful one of plane 0, on the thread of a sync in progress, of a buffer probed since the last clear |
| PresentedFrames.SwapExactly | rust/src/screenshot_native.rs:339-348 | a presentation swaps if and only if a sync has ended and no phase followed |
| PresentedFrames.SameCycleExactly | rust/src/screenshot_native.rs:316-357 | frame and overlay of a capturable pair belong to the same sync if and only if a map was accepted during the swapped cycle |
| PresentedFrames.FrameCanBeKept | rust/src/screenshot_native.rs:329-338 | a run in which a cycle without a map captures the frame of the cycle before |
| PresentedFrames.ClearForgets | rust/src/screenshot_native.rs:206-225 | nothing probed, staged, synced or swapped before a clear can be captured after it |
| PresentedFrames.CycleCaptures | rust/src/screenshot_native.rs:316-357 | an undisturbed cycle makes exactly its frame and overlay capturable, and not before the swap |
| PresentedFrames.SyncOrigin | rust/src/screenshot_native.rs:323-328 | a sync in progress holds what was staged when it began |
| PresentedFrames.MapOrigin | rust/src/screenshot_native.rs:458-470 | the frame held is that of the last accepted map, with no clear since |
| PresentedFrames.RenderOrigin | rust/src/screenshot_native.rs:329-338 | what is being rendered was taken when the sync ended |
| PresentedFrames.SwapOrigin | rust/src/screenshot_native.rs:339-348 | what can be captured was swapped in last, with no clear since |
| PresentedFrames.ContextOrigin | rust/src/screenshot_native.rs:281-291 | what a buffer carries was read by a probe and then installed in it, or in the buffer it was copied from |
| PresentedFrames.StagedOrigin | rust/src/screenshot_native.rs:183-197 | the staged overlay is the last one staged, with no clear since |
| PresentedFrames.GenerationGrows | rust/src/screenshot_native.rs:206-220 | the generation never decreases, and is the same at two moments if and only if there was no clear in between |
| PresentedFrames.StagedEmptyIsEmpty | rust/src/screenshot_native.rs:183-194 | staging nothing always leaves an overlay of the requested size without caption or drawing, and keeps one that is already so |
| PresentedFrames.Presentation.constructor | rust/src/screenshot_native.rs:139-163 | a new tracker has nothing staged, mapped or presented |
| PresentedFrames.Presentation.StageOverlay | rust/src/screenshot_native.rs:195-197 | staging replaces the staged overlay only |
| PresentedFrames.Presentation.StageNothing | rust/src/screenshot_native.rs:183-194 | an overlay already empty at that size is kept |
| PresentedFrames.Presentation.Capture | rust/src/screenshot_native.rs:198-205 | capturing returns the presented pair, or fails when there is none |
| PresentedFrames.Presentation.ClearAll | rust/src/screenshot_native.rs:206-225 | clearing forgets everything and starts a new generation |
| PresentedFrames.Presentation.EnterPhase | rust/src/screenshot_native.rs:316-357 | the three phases update phase and presented pair as specified, whatever phase came before |
| PresentedFrames.Presentation.ObserveMap | rust/src/screenshot_native.rs:455-470 | a map counts only if it succeeded on plane 0, in the present generation, during a sync on its thread |
| ViewingHistory.ValidParts | rust/src/viewing_history.rs:20-61 | validation, which compares set sizes, means bounds, valid entries, issued keys and lists without duplicates |
| ViewingHistory.PositionsExactly | rust/src/viewing_history/recordings.rs:104-114 | the valid positions are exactly those that a player's reports give, cut at the duration |
| ViewingHistory.TextLimit | rust/src/viewing_history/recordings.rs:142-154 | the text of a valid identity is limited by its bytes, exactly |
| ViewingHistory.ToggleKeepsValid | rust/src/viewing_history.rs:116-130 | toggling a favourite keeps the document's form and changes nothing about whether it is valid |
| ViewingHistory.ToggleEffect | rust/src/viewing_history.rs:116-130 | toggling appends a missing station unless the list is full, removes a present one, keeps the others in order, and otherwise changes nothing |
| ViewingHistory.MoveKeepsValid | rust/src/viewing_history.rs:131-145 | the same for moving a favourite |
| ViewingHistory.MoveEffect | rust/src/viewing_history.rs:131-145 | a listed station stands at the requested place of the list and the others keep their order; any other station or place changes nothing |
| ViewingHistory.ObserveKeepsValid | rust/src/viewing_history.rs:160-167 | the same for noting a watched station |
| ViewingHistory.NewKeyNumber | rust/src/viewing_history.rs:216-225 | an issued key parses to its own number and fits the key limit |
| ViewingHistory.IssuedExactly | rust/src/viewing_history.rs:23-27 | the keys issued so far are exactly the numbers from one to the last |
| ViewingHistory.NewKeyUnused | rust/src/viewing_history.rs:216-225 | the next key is carried by no entry |
| ViewingHistory.RecordedKey | rust/src/viewing_history.rs:214-226 | the recorded entry's key is issued, differs from the others', and is new for a new source |
| ViewingHistory.RecordKeepsOrder | rust/src/viewing_history.rs:200-238 | after a record the sources are the recorded one, then the others in order, cut to the limit, with sources and keys distinct |
| ViewingHistory.RefusedExactly | rust/src/viewing_history.rs:205-235 | a record is refused if and only if an entry already has exactly this identity and position, or its source is new and the keys are exhausted; a full list never refuses |
| ViewingHistory.OthersMembers | rust/src/viewing_history.rs:214-215 | recording removes no entry of another source, apart from the cut |
| ViewingHistory.RecordKeepsKeyed | rust/src/viewing_history.rs:200-238 | recording anything keeps bounds, key freshness and distinctness |
| ViewingHistory.RecordValidIff | rust/src/viewing_history.rs:200-238 | after an accepted record, on any document, the result is valid if and only if what was recorded is and so is everything that stays behind it |
| ViewingHistory.RecordKeepsFormed | rust/src/viewing_history.rs:200-238 | recording anything, valid or not, keeps everything else that loading asks for |
| ViewingHistory.EntryCarriesLast | rust/src/viewing_history.rs:200-238 | every retained entry carries the identity and position last recorded for its source, and is unchanged when nothing was |
| ViewingHistory.RunValidIff | rust/src/viewing_history.rs:116-238 | after any run from a loaded document, what is saved can be loaded again if and only if every source still on the list was last recorded with something valid |
| ViewingHistory.RunKeepsValid | rust/src/viewing_history.rs:205-238 | a run of valid records on a valid document leaves it valid |
| ViewingHistory.RecordCanSpoil | rust/src/epgstation.rs:657-697 | a recording whose start time is zero spoils the document, also for valid records of other sources after it |
| ViewingHistory.RecordCanRepair | rust/src/viewing_history.rs:200-238 | recording that source again with something valid repairs it |
| ViewingHistory.FrontExactly | rust/src/viewing_history.rs:204-235 | a record leaves its source at the front if and only if it is accepted or the source was there |
| ViewingHistory.RepeatStaysBehind | rust/src/viewing_history.rs:208-213 | an input on which a repeated record stays behind another source |
| ViewingHistory.KeyNamesOneSource | rust/src/viewing_history.rs:200-238 | over a whole run a key never denotes two sources, even across eviction and re-recording |
| ViewingHistory.RetainedSourceKeepsKey | rust/src/viewing_history.rs:214-215 | a source keeps its key for as long as it stays on the list |
| ViewingHistory.RecordingsAreMostRecent | rust/src/viewing_history.rs:200-238 | over any run the recordings are the distinct sources in most-recently-recorded order, cut to the limit, and the keys issued are as many as sources were new, both read off the operations alone |
| ViewingHistory.RecentAreMostRecent | rust/src/viewing_history.rs:160-167 | the recent stations are the distinct ones watched, newest first, cut to the limit |
| ViewingHistory.History.Loading | rust/src/viewing_history.rs:84-91 | a history being loaded is not ready |
| ViewingHistory.History.Transient | rust/src/viewing_history.rs:76-83 | a transient history is ready, empty, and has no storage |
| ViewingHistory.History.Load | rust/src/viewing_history.rs:244-259 | a document that validates is taken over, and any other outcome leaves an empty, valid history |
| ViewingHistory.History.Save | rust/src/viewing_history.rs:239-243 | the document in memory is handed to storage if it is loaded and there is a storage worker |
| ViewingHistory.History.ToggleFavorite | rust/src/viewing_history.rs:116-130 | on any loaded document toggling follows its specification, saves exactly when it changes something, and neither spoils nor repairs it; nothing happens while loading |
| ViewingHistory.History.MoveFavorite | rust/src/viewing_history.rs:131-145 | the same for moving |
| ViewingHistory.History.PutRecent | rust/src/viewing_history.rs:162-164 | the station is moved or added to the front and the list cut |
| ViewingHistory.History.ObserveQualified | rust/src/viewing_history.rs:152-167 | a qualified station is noted and saved, which neither spoils nor repairs the document |
| ViewingHistory.History.ClaimKey | rust/src/viewing_history.rs:214-226 | the source's old entry leaves with its key, or the next key is issued, or nothing changes when keys are exhausted |
| ViewingHistory.History.PutRecord | rust/src/viewing_history.rs:200-235 | recording follows its specification and reports whether it was accepted |
| ViewingHistory.History.RecordProgress | rust/src/viewing_history.rs:200-238 | on any loaded document an accepted record is saved, and leaves a valid document exactly under the condition of RecordValidIff |
| Decimal.ParsePrint | rust/src/viewing_history.rs:23-27 | a printed 64-bit number parses back to itself |
| Decimal.PrintInjective | rust/src/comment_model.rs:165-172 | different numbers are printed differently |
| Decimal.DigitsArePrinted | rust/src/comment_model.rs:173-180 | a text of digits is the number it stands for as printed, after zeros |
| Decimal.ParseExactly | rust/src/comment_model.rs:173-180 | a text reads as a number if and only if it is that number as printed, after any zeros and perhaps a plus |
| Decimal.PrintedU64Length | rust/src/viewing_history.rs:224 | a printed 64-bit number has at most twenty digits |
| Lists.SizeIffDistinct | rust/src/viewing_history.rs:29-56 | a list has as many distinct members as places exactly when it has no duplicates |
| Lists.FrontOfCut | rust/src/viewing_history.rs:162-164 | moving to the front and cutting commute with having cut before |
| SaveQueue.QueueConserves | rust/src/screenshots.rs:166-258 | after any run bytes are exactly those of the captures held and within the budget, at most 32 are held and 2 run, work was taken up in acceptance order, and every accepted capture is held or has left exactly once |
| SaveQueue.EmptyMeansAllLeft | rust/src/screenshots.rs:166-258 | when the queue is empty, what has left is exactly what was accepted, and no bytes remain |
| SaveQueue.CollectConserves | rust/src/screenshots.rs:198-210 | collecting neither loses nor duplicates a running capture |
| SaveQueue.CollectFinds | rust/src/screenshots.rs:198-210 | despite swap removal the scan collects exactly those found finished |
| SaveQueue.LaunchInOrder | rust/src/screenshots.rs:211-232 | waiting captures are taken from the front until both workers are busy or none waits |
| SaveQueue.LaunchConserves | rust/src/screenshots.rs:211-232 | each capture taken up runs or leaves refused, exactly once |
| SaveQueue.LaunchRefuses | rust/src/screenshots.rs:223-230 | only refused captures leave unrun and no refused one runs |
| SaveQueue.PollConserves | rust/src/screenshots.rs:196-234 | a poll loses nothing and invents nothing |
| SaveQueue.PollCollectsFinished | rust/src/screenshots.rs:196-210 | a worker found finished is reported by that very poll |
| SaveQueue.PollLeavesUnfinished | rust/src/screenshots.rs:194-234 | a poll reports nothing that is neither finished nor refused |
| SaveQueue.PollKeepsBusy | rust/src/screenshots.rs:211-214 | after a poll both workers are busy or nothing waits |
| SaveQueue.FinishRound | rust/src/screenshots.rs:235-257 | each shutdown round leaves fewer captures, so shutdown ends |
| SaveQueue.Queue.constructor | rust/src/screenshots.rs:159-165 | a new queue is empty |
| SaveQueue.SubmitExactly | rust/src/screenshots.rs:173-193 | a capture is accepted if and only if fewer than 32 are held, its bytes fit into 256 MiB with theirs and ids last, and then waits last under the next id |
| SaveQueue.Queue.SubmitCapture | rust/src/screenshots.rs:173-193 | a capture is accepted exactly within count, byte budget and id space, with the next id and at the back |
| SaveQueue.Queue.RemoveRunning | rust/src/screenshots.rs:204-205 | the last worker takes the removed one's place, and the byte count does not underflow |
| SaveQueue.Queue.CollectFinished | rust/src/screenshots.rs:197-210 | the index loop with swap removal does what the specified scan does |
| SaveQueue.Queue.TryOldest | rust/src/screenshots.rs:212-231 | the oldest waiting capture runs, or leaves with its bytes returned |
| SaveQueue.Queue.LaunchWaiting | rust/src/screenshots.rs:211-232 | the start loop does what the specified launch does |
| SaveQueue.Queue.PollWorkers | rust/src/screenshots.rs:196-234 | a poll follows its specification and keeps the queue's invariant |
| SaveQueue.Queue.DrainRunning | rust/src/screenshots.rs:247-256 | waiting for the workers frees exactly their bytes |
| SaveQueue.Queue.Finish | rust/src/screenshots.rs:235-258 | shutdown terminates with the queue empty and every held capture reported or waited for, exactly once |
| BroadcastPresentation.AlwaysSettled | assets/web-bml/presentation.js:44-119 | after every event of every run the shown state agrees with availability, loading, visibility and the pending request |
| BroadcastPresentation.StepSettles | assets/web-bml/presentation.js:53-118 | each event keeps a settled state settled |
| BroadcastPresentation.StepRepairs | assets/web-bml/presentation.js:53-118 | every event that settles restores a merely consistent state |
| BroadcastPresentation.PendingShowsOpening | assets/web-bml/presentation.js:92-99 | while a request is pending the page shows opening, or that there is no broadcast |
| BroadcastPresentation.FactsFollow | assets/web-bml/presentation.js:44-119 | after any run the state is built on exactly what was last reported of each fact, and a request is pending from when it is made until it is taken |
| BroadcastPresentation.TakenExactly | assets/web-bml/presentation.js:106-118 | a request is taken exactly from a synchronized, loaded document that receives nothing and is not without a broadcast |
| BroadcastPresentation.LoadingKeepsShown | assets/web-bml/presentation.js:70-104 | a loading document keeps what it showed, with presenting turned to transition and a broadcast that comes back to opening |
| BroadcastPresentation.ResetShows | assets/web-bml/presentation.js:53-61 | a reset page opens if it is to be activated and otherwise stands by |
| BroadcastPresentation.RequestTakenOnce | assets/web-bml/presentation.js:107-118 | once a request that could be taken is taken, none can be taken again, whatever follows, until one is made |
| BroadcastPresentation.PresentationState.constructor | assets/web-bml/presentation.js:45-51 | the initial state |
| BroadcastPresentation.PresentationState.ResetPage | assets/web-bml/presentation.js:53-61 | a reset forgets the document and keeps only whether to activate |
| BroadcastPresentation.PresentationState.SettleState | assets/web-bml/presentation.js:92-105 | settling shows unavailable first, then leaves busy pages alone, then follows visibility |
| BroadcastPresentation.PresentationState.OpenRequest | assets/web-bml/presentation.js:63-67 | a request makes the page opening |
| BroadcastPresentation.PresentationState.Navigate | assets/web-bml/presentation.js:69-75 | a presenting page that starts loading is in transition |
| BroadcastPresentation.PresentationState.SetInvisible | assets/web-bml/presentation.js:77-80 | visibility is noted and settled |
| BroadcastPresentation.PresentationState.SetReceiving | assets/web-bml/presentation.js:82-84 | reception is noted only |
| BroadcastPresentation.PresentationState.SetAvailable | assets/web-bml/presentation.js:86-90 | a broadcast that comes back starts over as opening |
| BroadcastPresentation.PresentationState.Take | assets/web-bml/presentation.js:113-118 | a request is taken at most once and only when it can be |
| BroadcastSession.DeliveredInEpoch | assets/web-bml/session.js:8-36 | whatever reaches the browser came after the session's opening frame and carries its epoch |
| BroadcastSession.Opened | assets/web-bml/session.js:15-27 | an opened session keeps the epoch of the one frame that opened it |
| BroadcastSession.ReadyOnce | assets/web-bml/session.js:32-34 | a page becomes ready at most once |
| BroadcastSession.StoppedForGood | assets/web-bml/session.js:9-14 | after a fault or restart request no frame has any effect |
| BroadcastSession.SecondBeginRestarts | assets/web-bml/session.js:15-23 | a second valid begin asks for a fresh page unless the session has stopped |
| BroadcastSession.StateExactly | assets/web-bml/session.js:8-36 | where a session stands is read off the frames received: begins, faults and ready frames of the first epoch |
| BroadcastSession.EffectExactly | assets/web-bml/session.js:8-36 | what every frame does is read off the frames before it; in particular every update of the session's epoch reaches the browser, also once live, until a fault or a second begin |
| BroadcastSession.SessionProtocol.ReceiveFrame | assets/web-bml/session.js:8-36 | one frame changes state and epoch, and calls or throws, as specified |
| BroadcastTimer.AtMostOneTimeout | assets/web-bml/activation.js:22-43 | however the timer is cancelled, updated and fired, at most one timeout of the browser is outstanding |
| BroadcastTimer.StepKeeps | assets/web-bml/activation.js:22-43 | no timeout is ever scheduled but the one whose handle is kept |
| BroadcastTimer.CancelledKeeps | assets/web-bml/activation.js:27-30 | cancelling leaves no timeout and no task |
| BroadcastTimer.UpdatedKeeps | assets/web-bml/activation.js:31-34 | the kept handle stands for a task exactly while a request is pending, and a running task is not restarted |
| BroadcastTimer.FiredKeeps | assets/web-bml/activation.js:35-43 | a timeout that fires can only be the kept one, and leaves what is rescheduled as the only one |
| BroadcastTimer.Clock.SetTimeout | assets/web-bml/activation.js:36 | a timeout is scheduled under a fresh handle |
| BroadcastTimer.Clock.ClearTimeout | assets/web-bml/activation.js:28 | exactly that timeout is no longer scheduled |
| BroadcastTimer.Activation.constructor | assets/web-bml/activation.js:23-26 | no timeout at first |
| BroadcastTimer.Activation.Cancel | assets/web-bml/activation.js:27-30 | the kept timeout is cleared and forgotten |
| BroadcastTimer.Activation.Schedule | assets/web-bml/activation.js:35-36 | a new timeout is scheduled and its handle kept |
| BroadcastTimer.Activation.Update | assets/web-bml/activation.js:31-34 | cancels or schedules as specified |
| BroadcastTimer.Activation.Fire | assets/web-bml/activation.js:36-42 | the callback polls, settles or asks to deliver as specified |
| BroadcastOwner.BrowserOwner.constructor | rust/qml/DataBroadcastView.qml:10-18 | the owner starts unready, resuming what it was given |
| BroadcastOwner.BrowserOwner.RestartBrowser | rust/qml/DataBroadcastView.qml:32-40 | a restart is a new revision that resumes what is asked and is not ready |
| BroadcastOwner.BrowserOwner.EndpointChanged | rust/qml/DataBroadcastView.qml:14 | a known new endpoint restarts a ready browser |
| BroadcastOwner.BrowserOwner.Activate | rust/qml/DataBroadcastView.qml:41-48 | an activation is a new revision, resumed later or sent to a ready page |
| BroadcastOwner.BrowserOwner.DataButton | rust/qml/DataBroadcastView.qml:63-68 | the button goes to a ready page and otherwise activates |
| BroadcastOwner.BrowserOwner.BridgeRestart | rust/qml/DataBroadcastView.qml:91-93 | only a restart request of the present revision is honoured |
| BroadcastOwner.BrowserOwner.LoadSucceeded | rust/qml/DataBroadcastView.qml:95-103 | a loaded page is told to connect, at the present revision, with what is to be resumed, if there is a broadcast |
| BroadcastPage.ReceivedUnsettles | assets/web-bml/entry.js:195-214 | a message leaves a settled page unsettled if and only if it is a failing first map of a manual-start service that takes a request from a loaded page with a broadcast |
| BroadcastPage.ReceivedResettles | assets/web-bml/entry.js:195-214 | an unsettled page is settled again by a message if and only if that is handled and concerns the programme |
| BroadcastPage.FramedSettling | assets/web-bml/entry.js:230-241 | the same for frames, whatever the session does with them |
| BroadcastPage.ManualStartOnce | assets/web-bml/entry.js:199-205 | a map takes a request only as the first entry point of its connection, and no later one does |
| BroadcastPage.DeliversExactly | assets/web-bml/activation.js:35-43 | a firing delivers if and only if the page could take its request, a settled task is due and the document listens |
| BroadcastPage.TimerExactly | assets/web-bml/activation.js:31-43 | the timer fires at once, every 100 milliseconds until the document listens, and once more a second later |
| BroadcastPage.ButtonExactly | assets/web-bml/entry.js:158-165 | the data button's key goes straight to a loaded, synchronized document with nothing pending, and otherwise a request is pending |
| BroadcastPage.FaultStops | assets/web-bml/entry.js:217-252 | a fault, a frame out of place and a message that fails stop the timer, and no retry follows when the socket closes |
| BroadcastPage.ConnectForgets | assets/web-bml/entry.js:178-193 | a new connection keeps nothing of what was before it: no task, no retry, no programme knowledge, no presentation |
| BroadcastPage.BrowserPage.constructor | assets/web-bml/entry.js:12-21 | a fresh page is unconnected with a request pending |
| BroadcastPage.BrowserPage.CancelTimer | assets/web-bml/activation.js:27-30 | the page's task is off |
| BroadcastPage.BrowserPage.UpdateTimer | assets/web-bml/entry.js:68-69 | the page's task follows whether a request could be taken |
| BroadcastPage.BrowserPage.FireTimer | assets/web-bml/entry.js:59-67 | a due timeout polls, settles or delivers as specified, and reports a delivery |
| BroadcastPage.BrowserPage.SetUrl | assets/web-bml/entry.js:31-36 | navigation updates presentation and timer |
| BroadcastPage.BrowserPage.SetVisibility | assets/web-bml/entry.js:140-143 | visibility updates presentation and timer |
| BroadcastPage.BrowserPage.SetReceivingStatus | assets/web-bml/entry.js:37-40 | reception updates presentation and timer |
| BroadcastPage.BrowserPage.Activate | assets/web-bml/entry.js:149-157 | an activation notes the revision, makes a request and starts the timer if it can be taken |
| BroadcastPage.BrowserPage.PressDataButton | assets/web-bml/entry.js:158-165 | the button makes a request during startup or navigation and otherwise sends the key itself |
| BroadcastPage.BrowserPage.RequestRestart | assets/web-bml/entry.js:166-177 | a restart is asked for once, with the page's revision and undelivered request |
| BroadcastPage.BrowserPage.PrepareConnection | assets/web-bml/entry.js:180-189 | connecting resets timers, programme knowledge and presentation |
| BroadcastPage.BrowserPage.Connect | assets/web-bml/entry.js:178-226 | a connection starts with a fresh session and the timer off |
| BroadcastPage.BrowserPage.Fail | assets/web-bml/entry.js:217-219 | a fault stops the timer and marks the connection |
| BroadcastPage.BrowserPage.NoteMessage | assets/web-bml/entry.js:195-208 | maps and programme information update what is known, and a manual-start entry takes the first request |
| BroadcastPage.BrowserPage.HandleMessage | assets/web-bml/entry.js:195-214 | availability is reported and the timer updated only if the browser handled the message |
| BroadcastPage.BrowserPage.HandleFrame | assets/web-bml/entry.js:230-241 | a frame on the current connection is received as specified, and posts a restart request exactly when one is called for |
| BroadcastPage.BrowserPage.SocketClosed | assets/web-bml/entry.js:243-252 | a closed socket stops the timer and schedules a retry unless the connection failed or the page is restarting |
| BroadcastWorld.StepKeepsOrder | assets/web-bml/entry.js:149-253 | every event of page, owner, calls and restart requests keeps the timer discipline, the order of calls and revisions, and that a restart request naming the present revision belongs to the waiting page |
| BroadcastWorld.RestartPosts | assets/web-bml/entry.js:166-177 | a restart request carries the pending request, and the owner will honour it if and only if no newer activation is on its way to the page |
| BroadcastWorld.RestartHonoured | rust/qml/DataBroadcastView.qml:91-93 | a restart request that arrives reloads the page, to resume what it asks, exactly if it names the present revision |
| BroadcastWorld.StartupOver | assets/web-bml/entry.js:193-205 | only a new page or connection starts the manual-start policy anew |
| BroadcastActivation.AtMostOnce | assets/web-bml/entry.js:59-67 | over any run, deliveries and requests still to be delivered never exceed the requests made |
| BroadcastActivation.TallyExactly | assets/web-bml/entry.js:149-165 | exactly these events are requests, and exactly these are deliveries |
| BroadcastActivation.CallsExactly | rust/qml/DataBroadcastView.qml:41-104 | every call the owner makes to a page, for a load, an activation or a data button, arrives in its turn or is still on its way |
| BroadcastActivation.ButtonIsHeard | assets/web-bml/entry.js:158-165 | a data button that arrives reaches the document as it is, or leaves a request pending |
| BroadcastActivation.DeliveriesCovered | assets/web-bml/entry.js:59-67 | over any stretch of a run, what is delivered was requested in it or pending before it |
| BroadcastActivation.DeliveryUsesUp | assets/web-bml/entry.js:62-66 | a delivery uses up exactly one pending request |
| BroadcastActivation.DeliveryConditions | assets/web-bml/activation.js:35-43 | a delivery happens only on a connected, synchronized, loaded, available page that is neither receiving nor restarting, with a listening document, after the request was held on that page for a whole settle interval |
| BroadcastActivation.SettleOrigin | assets/web-bml/activation.js:35-43 | a settle timer was armed by a firing on a listening document, and task, page and pending request have been held since |
| BroadcastActivation.HeldThroughout | assets/web-bml/activation.js:35-43 | held means pending, with the same task on the same page, at every moment in between |
| BroadcastActivation.PendingIsDelivered | assets/web-bml/activation.js:31-43 | whatever else happens, while the page can take its request and its document listens, the second due firing delivers it |
| BroadcastActivation.TimerRuns | assets/web-bml/activation.js:31-34 | on a page that can take its request the timer is running |
| BroadcastActivation.StepLaw | assets/web-bml/entry.js:149-253 | after any event a request is on course for delivery if and only if it was and the event is none of those that end it, or it was not and the event is one of those that make one |
| BroadcastActivation.RequestKeeps | assets/web-bml/entry.js:149-253 | over any run a request stays on course until one of those events ends it: nothing else loses it |
| BroadcastRestart.LostSocketResumes | assets/web-bml/entry.js:243-252 | after a lost socket, in any interleaving without a user's or owner's request, the next page is told to connect a retry interval or more later, and to activate exactly if a request was pending |
| BroadcastRestart.LostSocketRecovers | assets/web-bml/entry.js:243-252 | and it does come: a run in which, a second later, the retry brings up a connected new page with a request pending exactly if there was one |
| BroadcastRestart.RestartedPageNeverDelivers | assets/web-bml/entry.js:166-177 | a page that has asked for a restart never delivers until it is replaced |
| BroadcastRestart.StrandedExactly | rust/qml/DataBroadcastView.qml:41-93 | an event strands a page if and only if the owner activates it while its restart request is on its way, or it asks for a restart while an activation is on its way to it |
| BroadcastRestart.StrandedUntilReload | rust/qml/DataBroadcastView.qml:91-93 | a stranded page waits, delivering nothing, until the owner reloads it |
| BroadcastRestart.ActivationStrands | rust/qml/DataBroadcastView.qml:41-48 | a run from the start that strands a page in the first way, with nothing left on its way |
| BroadcastRestart.RestartStrands | assets/web-bml/entry.js:166-177 | a run from the start that strands a page in the second way |
| BroadcastShown.StepSettles | assets/web-bml/entry.js:149-253 | whether the shown state is settled after any event is known exactly |
| BroadcastShown.PresentationSettled | assets/web-bml/entry.js:195-214 | at every moment of every run the shown state is unsettled if and only if such a failing map left it so and no settling event followed |
| BroadcastShown.FailureCanUnsettle | assets/web-bml/entry.js:202-211 | a run from the start that leaves the shown state unsettled |
| BroadcastKnowledge.PageKnows | assets/web-bml/entry.js:178-241 | at every moment of every run the page knows exactly what the frames since it was connected say: the session's place, whether it failed, entry point, programme and components, availability, synchronization, and what the document reported |
| BroadcastKnowledge.UnavailableExactly | assets/web-bml/entry.js:59-69 | it shows that there is no broadcast if and only if, at the last handled message about the programme, that was known and the last map had no component of type 0x0d with id 0x40 or 0x80; and it can take a request exactly if one is pending and what it was told allows it |
| BroadcastKnowledge.CarriesExactly | assets/web-bml/entry.js:197-198 | a map has a data broadcast if and only if a component has that type and one of those ids |
| BroadcastKnowledge.EntryExactly | assets/web-bml/entry.js:199-203 | the entry point of a map is that of its first component with one |
| Channels.OrderTotal | rust/src/channels.rs:147-164 | the six-part order is antisymmetric and separates channels with different ids |
| Channels.OrderTransitive | rust/src/channels.rs:147-164 | the order is transitive |
| Channels.OrderExactly | rust/src/channels.rs:147-164 | one channel comes before another exactly by band, numbered before unnumbered, number, label as text, service, and id |
| Channels.LabelExactly | rust/src/channels.rs:105-109 | a label is the channel number with at least two digits, or three, padded with zeros, or dashes, before the name |
| Channels.NumberExactly | rust/src/channels.rs:98-104 | the number is the remote key of a terrestrial service and the service number of any other, unless that is zero |
| Channels.ChannelExactly | rust/src/channels.rs:110-139 | a channel carries what its service says, but a remote key only from 1 to 12 and a physical channel only with a name |
| Channels.SortSorts | rust/src/channels.rs:147-164 | the sort is sorted |
| Channels.SortedUnique | rust/src/channels.rs:144-164 | sorted permutations with distinct ids are equal, so an unstable sort has one result |
| Channels.ParseResult | rust/src/channels.rs:94-166 | the list is sorted, has no repeated id, contains only shown services and misses none of their ids |
| Channels.ParseExactly | rust/src/channels.rs:94-166 | the list has exactly the channels of the shown services that are the first of their id |
| Channels.ShownExactly | rust/src/channels.rs:96-96 | a service is shown exactly if it is a television service with an id and a name that is not blank |
| Channels.KeptIffListed | rust/src/channels.rs:96-143 | when equal ids agree, exactly the listed channels are kept |
| Channels.AgreeingIsOrderFree | rust/src/channels.rs:94-166 | responses that are permutations give the same list when equal ids agree, in particular when ids are distinct |
| Channels.OrderFreeAgrees | rust/src/channels.rs:94-166 | and if they always give the same list, equal ids agree |
| Channels.OrderFreeIffIdsAgree | rust/src/channels.rs:144-166 | parsing is independent of the response's order if and only if shown services with equal ids describe the same channel |
| Channels.ParseServices | rust/src/channels.rs:94-166 | the filtering loop with its seen set, followed by the sort, computes the specified list |
| ChannelCatalog.Find | rust/src/channels/catalog.rs:30-35 | the first channel with an id, if there is one |
| ChannelCatalog.RefreshesKeepSelection | rust/src/channels/catalog.rs:41-53 | no refresh changes the selected station, and it is found again exactly when it is listed |
| ChannelCatalog.ReplaceExactly | rust/src/channels/catalog.rs:43-53 | a chosen station is never replaced; without one, the preferred station is chosen if listed, else the first |
| ChannelCatalog.SelectExactly | rust/src/channels/catalog.rs:72-76 | a place that is selected is the one found afterwards, also after refreshes with the same list, and a place outside the list changes nothing |
| ChannelCatalog.RemoteKeyOrderFree | rust/src/channels/catalog.rs:55-69 | a remote key picks the same station under any order of the catalogue |
| ChannelCatalog.RemoteKeyChoice | rust/src/channels/catalog.rs:55-69 | the watched station wins its own key; otherwise the lowest service number does, those without one last, and the lowest id among equals |
| ChannelCatalog.Catalog.ReplaceChannels | rust/src/channels/catalog.rs:43-53 | only a first nonempty list chooses a station, the preferred one if listed |
| ChannelCatalog.Catalog.SelectIndex | rust/src/channels/catalog.rs:72-76 | an index outside the list selects nothing and changes nothing |
| CommentHistory.HistoryShowsLog | rust/src/comment_model.rs:187-231 | after any appends and clears the rows are exactly the last 2000 comments since the last clear |
| CommentHistory.AppendShows | rust/src/comment_model.rs:187-218 | one append keeps that, even when it alone exceeds the limit |
| CommentHistory.RowIdRoundTrip | rust/src/comment_model.rs:165-180 | every row is found again by its id |
| CommentHistory.RowForIdIsRow | rust/src/comment_model.rs:173-180 | whatever text is looked up, the answer is -1 or the row whose number it names |
| CommentHistory.RowForIdExactly | rust/src/comment_model.rs:173-180 | a text finds a row if and only if it reads as the number of that row's id |
| CommentHistory.IdNamesLogPlace | rust/src/comment_model.rs:165-172 | an id is the place of its comment among everything received |
| CommentHistory.IdKeepsComment | rust/src/comment_model.rs:165-180 | an id names the same comment for as long as it names one, also across clears |
| CommentHistory.Run | rust/src/comment_model.rs:187-231 | no more rows are held than were received, so ids never underflow |
| CommentHistory.ChangesInRange | rust/src/comment_model.rs:198-230 | announced ranges are nonempty and lie within the rows they speak of |
| CommentHistory.MirrorShowsRows | rust/src/comment_model.rs:187-231 | a view driven only by the announcements always shows the rows |
| CommentHistory.CommentModel.AppendComments | rust/src/comment_model.rs:187-218 | an append changes rows and counter and announces as specified |
| CommentHistory.CommentModel.ClearComments | rust/src/comment_model.rs:219-231 | a clear empties the rows, keeps the counter and announces unless there was nothing |
| CommentHistory.CommentModel.IdOfRow | rust/src/comment_model.rs:165-172 | the id of a row, or nothing outside the rows |
| CommentHistory.CommentModel.FindRow | rust/src/comment_model.rs:173-180 | the row of an id, or -1 for text that names none |

## Left out

Bookkeeping that only the models have: `Pending.number` and `State.requests` number the user's
requests in the library, activation numbers in `ProgramFallback` tell one playing of a recording from
the next, and the tally and the number of pages in `BroadcastWorld` count what the theorems are
about. The program keeps none of these and decides nothing by them.

- Shadow: rasterising the path, computing the spread and the bounds in floating point, and painting the result; the spread is a parameter. The sum is an unbounded integer, and `WindowFitsLine` says when it fits 32 bits.
- Crop independence of the shadow: not claimed, since only a border one spread wide is kept around the visible area.
- HTTP, login, JSON decoding, channel enrichment and thumbnail contents: a server answer is a page with a cookie or a refusal. Trimming of the keyword happens before the model's `Open`.
- Background jobs: a worker finishes with a value, or with none when it was aborted or failed; the runtime that runs it and the abort of a dropped job are not modelled.
- Counters that wrap in the program (revisions, session and frame generations, comments received) are unbounded.
- Program information: `synchronize`, the playback progress that goes with broadcast information, and the formatting of the information.
- Frames: GStreamer segments, latency and timing, buffer memory and the release of retired buffers outside the mutex; a buffer's probe, its copies and its maps are events. A captured pair is a value, so that it does not change afterwards holds by construction. Overlay dimensions are integers.
- History: the ten-second qualification of a station is an input; `observe_live`'s answer about the previous station, the file with its size limit, and the worker that owns it, which writes nothing after a failed load, are left out. Whether a source is well formed is a parameter, and positions are reals without infinities.
- Save queue: encoding and publishing a file and the result a worker returns. Which workers are found finished by one poll, and which starts the system refuses, are inputs; each worker is asked once per poll.
- Data broadcast: web-bml itself, its callbacks from within a message being handled (taken as separate events right after it), key input, status text, and the publisher of presentation snapshots. A cancelled timeout never fires.
- Owner and page: a call still on its way when a reload replaces the page is dropped; failed loads and crashes of the browser process are left out.
- Activation's policy object is folded into the page that owns it, whose document answers whether it listens as an input.
- Channels: numbers are unbounded where the program has 16 and 64 bits; the library's sort is an insertion sort, which `SortedUnique` shows makes no difference. Stepping to the next or previous channel is left out.
- Comments: Qt's signals, roles and index objects, and the byte count of `storage`.
- The danmaku engine, subtitles, transport stream parsing, remote control and update checks are not part of this model.

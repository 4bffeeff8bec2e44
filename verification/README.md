# Vita Moonlight: a verified model of the stateful cores

Vita Moonlight streams games from a PC to a handheld. This project models the parts of it
where state, threads or arithmetic interact, in Dafny 4.11, and proves what they are for.

- **Stream session** (`StreamFlags`, `StreamSession`, `StreamTheorems`). One owner thread runs
  each accepted session; stop requests and termination callbacks come from any thread. The
  flags under `s_stream_mutex` are a class whose methods are the critical sections. The
  protocol is a transition system with one step for each critical section and each unlocked
  action. It is compared with `MayFollow`, a description of the order of events that does not
  mention the flags. What ends a session, and that it then ends, is proved of every run.
- **Host control** (`HostControl`, `HostTheorems`, `HostStates`, `HostRaces`). The API's requests,
  the disconnect cleanup worker, shutdown and the owner's unlocked callback writes, interleaved
  with the stream session. The holder of the control mutex is the program counter of its critical
  section. The connection state and the two stream flags are compared with what the requests
  found out and what the session told.
- **Heap tracer** (`HeapLists`, `HeapTrace`, `HeapPeaks`, `HeapRuns`, `HeapReport`). The chained hash
  table over one entry array, its free list, the accounts of the callers and the ranking, as a class over arrays with
  a map from tracked pointers to blocks. Sizes and counters are 32-bit words that wrap around.
- **Event queue and foreground completion** (`EventQueue`, `QueueRuns`, `ConnectionService`,
  `Completion`). A ring, one slot for each kind of snapshot event and a retained head implement
  one sequence of waiting events. A foreground operation is completed by its worker's event, or
  by one made up when that event was not queued.
- **DNS names** (`DnsName`, `DnsWire`). The decoder with its bound on the number of items, against
  unbounded expansion by section 4.1.4 of RFC 1035, and against the names that were sent.
- **Responses** (`XmlHandlers`, `XmlParseContext`, `XmlSchema`). The Expat handlers for application
  lists and for launch and cancel responses, as methods on their context, against schemas of the
  element tree.
- **Bounded UTF-8 copies** (`Utf8`, `Utf8Scalars`). Two different cuts, against sections 3 and 4 of
  RFC 3629.
- **Statistics** (`StreamStats`, `StatsRecorder`, `StatsRuns`, `StatsReadings`). Two buckets for a sliding
  window, against a log of all events, over any calls; which events each number of a reading counts;
  frame loss modulo 2^32, against true frame numbers.
- **Host list and discovery** (`HostRows`, `HostListEdits`, `HostDiscovery`, `DiscoveryRuns`). Row tokens
  and the edit planner with its loop; the discovery cache with the revisions that its readers
  compare, over any calls.
- **Touch and video** (`TouchPoints`, `VideoGeometry`). Touch events, against a host that replays
  them; frame sizes and the in-place crop.

Assumptions about code that is not part of the model stand at the head of the module that makes
them: `StreamSession` for the transport library common-c, `Completion` for a worker's backend
call, `XmlSchema` for Expat. Readings of the clock and results of calls into the system are
parameters.

Six properties that one would expect hold only under a condition. The model has the exact
condition and a run that fails it.

- A stream that is starting is shown as pending unless the session before ended between the start
  request's mark and its admission, which takes a request that passed its checks between the first
  two writes of the STARTED callback. Such a session cannot be stopped by request while it starts
  (`HostStates.PendingUnlessMissed`, `HostRaces.MissesMark`).
- The connection state is Streaming while a stream is unless a start request, refused after passing
  its checks there, puts back Paired after the callback (`HostStates.StreamingUnlessOvertaken`,
  `HostRaces.OvertakesStarted`).
- The peak of an allocation site is at least its live bytes as long as no release wraps the live
  bytes around past the peak (`HeapTrace.PeakAfterRemove`, `HeapRuns.PeakFallsBehind`).
- A failed realloc keeps its tracked block unless every entry is taken when it comes to put it
  back, for instance because another thread took the last one (`HeapRuns.FailedAttach`,
  `HeapRuns.FailedReallocLoses`).
- The host follows a frame of touch reports unless it reports a new contact twice, or moves a
  contact and then reports it at the stored place (`TouchPoints.InStepExactly`,
  `TouchPoints.LaterReportIsLost`, `TouchPoints.DownTwice`). Reports whose id is 8 or more are
  forwarded under their index, so different ids can collide.
- The edit loop of the host list reaches the desired cells unless a row's token has more cells than
  it is wanted, which takes two rows that kept one token (`HostListEdits.ExactEdits`,
  `HostRows.TokensDistinct`, `HostRows.SharedToken`).

## Model

| member | source | states |
|---|---|---|
| StreamFlags.StreamControl.TryAdmit | src/moonlight/stream_session.cpp:658-684 | a running session is not replaced and the flags stay; otherwise all flags of the earlier session are reset |
| StreamFlags.StreamControl.GiveBack | src/moonlight/stream_session.cpp:720-731 | a session whose thread was not created is given back with its callback |
| StreamFlags.StreamControl.InterruptLocked | src/moonlight/stream_session.cpp:151-158 | the interrupt is sent exactly when it is due, and recorded |
| StreamFlags.StreamControl.RequestStop | src/moonlight/stream_session.cpp:737-754 | only a running session is cancelled, and is interrupted if its startup was published |
| StreamFlags.StreamControl.PublishStartup | src/moonlight/stream_session.cpp:160-167 | publishing a stage replays a stop that came first |
| StreamFlags.StreamControl.ConnectionStarted | src/moonlight/stream_session.cpp:217-227 | started is committed exactly when no stop was asked |
| StreamFlags.StreamControl.ConnectionTerminated | src/moonlight/stream_session.cpp:234-244 | a running session takes the result and is stopped; none other is touched |
| StreamFlags.StreamControl.FinishCommonStartup | src/moonlight/stream_session.cpp:170-186 | an interrupted, cancelled startup fails, and its transport is stopped if it had come up |
| StreamFlags.StreamControl.BeginFinishWorker | src/moonlight/stream_session.cpp:132-138 | the callback read is the session's own |
| StreamFlags.StreamControl.EndFinishWorker | src/moonlight/stream_session.cpp:142-148 | the session is over only after its callback |
| StreamSession.OwnerIsLawful | src/moonlight/stream_session.cpp:577-634 | each step of the owner is one that the protocol allows next |
| StreamSession.OutsideIsLawful | src/moonlight/stream_session.cpp:737-754 | so is each step of another thread, at any time |
| StreamSession.StepKeeps | src/moonlight/stream_session.cpp:112-244 | every step keeps the invariant that ties the flags to what happened |
| StreamSession.RunKeeps | src/moonlight/stream_session.cpp:577-754 | so does every interleaving |
| StreamTheorems.EveryRun | src/moonlight/stream_session.cpp:577-754 | in every interleaving, what happens is one lawful word for each session, and the events are the sessions' events one after the other |
| StreamTheorems.SessionEvents | src/moonlight/stream_session.cpp:577-634 | the events of a session are STARTED and then STOPPED if STARTED was committed, and otherwise one FAILED with a nonzero result, all through its own callback |
| StreamTheorems.StopsExactlyOnce | src/moonlight/stream_session.cpp:593-624 | LiStopConnection runs once if LiStartConnection returned zero and never otherwise; input runs exactly between commit and stop |
| StreamTheorems.AtMostOnce | src/moonlight/stream_session.cpp:150-232 | start, interrupt, commit, stop and the input calls happen at most once in a session |
| StreamTheorems.StopWins | src/moonlight/stream_session.cpp:217-232 | a stop before the commit excludes the commit, STARTED and input |
| StreamTheorems.InterruptWindow | src/moonlight/stream_session.cpp:150-186 | the interrupt is sent once, after a stop and a stage, before any successful return, and excludes the commit |
| StreamTheorems.NoLostCancel | src/moonlight/stream_session.cpp:150-167 | while LiStartConnection runs, a stage and a stop without a commit have been turned into an interrupt, in either order |
| StreamTheorems.StartupSucceedsIffCommitted | src/moonlight/stream_session.cpp:170-186 | finish_common_startup returns zero exactly when STARTED was committed, and then the owner streams; a transport that came up without the commit is stopped |
| StreamTheorems.RequestsAreHeard | src/moonlight/stream_session.cpp:234-244 | a stop request or a lost connection is taken by the running session, and changes nothing without one |
| StreamTheorems.PollEnds | src/moonlight/stream_session.cpp:602-617 | in every run a streaming owner leaves its loop exactly when its session was asked to stop or its connection was lost |
| StreamTheorems.CheckEnds | src/moonlight/stream_session.cpp:112-118 | a setup goes on exactly when no stop was asked, and is cancelled otherwise |
| StreamTheorems.SevenChecks | src/moonlight/stream_session.cpp:370-586 | LiStartConnection is called only after seven such checks |
| StreamTheorems.CommitsUnlessStopped | src/moonlight/stream_session.cpp:217-227 | a connection that comes up is committed exactly when no stop was asked |
| StreamTheorems.StoppedTells | src/moonlight/stream_session.cpp:628-633 | STOPPED tells the result of the last connection lost before the result was read, after the transport was stopped, or 0 |
| StreamTheorems.FailedTells | src/moonlight/stream_session.cpp:170-186 | FAILED tells -7 for an interrupted startup, the result of LiStartConnection or of the setup that failed, or -7 for a stop before LiStartConnection |
| StreamTheorems.OwnerCanStep | src/moonlight/stream_session.cpp:577-634 | an owner can always take a step of its own |
| StreamTheorems.EndsInTime | src/moonlight/stream_session.cpp:577-634 | in every run a session that was asked to stop, or lost its connection, ends after a bounded number of steps of its owner, stages of the transport apart |
| HostTheorems.HostRunKeeps | src/moonlight/api.cpp:53-77 | every interleaving of requests, worker, shutdown, callback writes and session steps keeps the invariant |
| HostTheorems.ServerHasOneDriver | src/moonlight/api.cpp:220-235 | the server record is never used or shut down by a request, the worker or shutdown while a stream owner exists |
| HostTheorems.ClosedAfterTerminal | src/moonlight/api.cpp:220-246 | CLOSED is emitted only when every session is complete; until then the owner that the worker, or shutdown, waits for was told to stop |
| HostTheorems.NothingAdmittedWhilePending | src/moonlight/api.cpp:53-61 | between an accepted disconnect and the return of its CLOSED callback no other request is admitted |
| HostTheorems.ClosedOncePerDisconnect | src/moonlight/api.cpp:248-265 | CLOSED is emitted once for each accepted disconnect |
| HostStates.ConnectionIsKnown | src/moonlight/api.cpp:438-440 | in every run there is a host, and it is Ready or else Paired or Streaming, as the last successful connect, PIN or pair request or the last disconnect or failed connect left it |
| HostStates.OnlyWithPairedHost | src/moonlight/api.cpp:557-611 | lists are loaded and streams started only with a PC that is known to be paired, and pairing is run only with one that is not |
| HostStates.IdleRequestsPass | src/moonlight/api.cpp:557-611 | without a stream owner each request passes its checks exactly when the host is as it needs it |
| HostStates.BusyRequests | src/moonlight/api.cpp:605-682 | with one, connects and lists are refused, a start request passes only in the gaps between the callback's writes, and a stop request is passed on exactly when the stream is shown as starting or active |
| HostStates.AdmittedUnlessPending | src/moonlight/api.cpp:53-61 | a request that finds the mutex free is admitted, and runs, exactly when no disconnect is open |
| HostStates.DisconnectPasses | src/moonlight/api.cpp:685-710 | a disconnect of a host is accepted unless one is open or its worker cannot be created |
| HostStates.LocksAreTaken | src/moonlight/api.cpp:220-289 | the worker of an open disconnect takes the mutex when it is free, and shutdown does as soon as there is no worker |
| HostStates.HolderGetsOn | src/moonlight/api.cpp:220-311 | the mutex is always given back: every step of its holder brings that nearer, but for waiting for an owner that was told to stop |
| HostStates.ActiveIsStreaming | src/moonlight/api.cpp:192-201 | a stream is active exactly from the second write of STARTED to that of the terminal event |
| HostStates.PendingUnlessMissed | src/moonlight/api.cpp:605-663 | a stream is pending exactly until the first write of its first callback, unless the session before began to write between the mark and the admission |
| HostStates.StreamingUnlessOvertaken | src/moonlight/api.cpp:192-201 | the state is Streaming exactly from the third write of STARTED to that of the terminal event, unless a refused start request put back Paired since |
| HostRaces.OvertakesStarted | src/moonlight/api.cpp:662-671 | a run after which an active stream's connection state is Paired |
| HostRaces.MissesMark | src/moonlight/api.cpp:605-682 | a run after which a starting stream is not pending, and a stop request is refused |
| HeapLists.MoveKeepsLinked | src/app/heap_trace.c:80-85 | moving an entry from one list to the front of another keeps all lists: disjoint, without cycles, covering all slots |
| HeapLists.EverySlotOnce | src/app/heap_trace.c:10-16 | each slot is in exactly one of the 1024 chains and the free list |
| HeapLists.FollowEnds | src/app/heap_trace.c:74-90 | following the links of a list meets its slots once each and stops |
| HeapLists.RemoveKeeps | src/app/heap_trace.c:67-91 | unlinking an entry is removal from the map of tracked blocks |
| HeapLists.InsertKeeps | src/app/heap_trace.c:122-129 | linking an entry is insertion into that map |
| HeapLists.FullWhenNoneFree | src/app/heap_trace.c:118-121 | the free list is empty exactly when all 8192 entries are tracked |
| HeapLists.TotalRemove | src/app/heap_trace.c:81-82 | a site's bytes and blocks are those of a block and of the rest |
| HeapLists.NoBlocksNoBytes | src/app/heap_trace.c:239-241 | a site without blocks has no bytes |
| HeapLists.AddTotal | src/app/heap_trace.c:81-82 | word addition and subtraction follow the true sums through any wrap-around |
| HeapTrace.CallocBytes | src/app/heap_trace.c:157-163 | the size is the product, or the largest word when that does not fit |
| HeapTrace.DischargeBooks | src/app/heap_trace.c:81-82 | removing a block keeps all accounts equal to the sums over the tracked blocks |
| HeapTrace.ChargeBooks | src/app/heap_trace.c:130-134 | so does inserting one; while no site's sum has passed the word size, every peak is at least the live bytes |
| HeapTrace.PeakAfterRemove | src/app/heap_trace.c:81-82 | a site stays in its peak through a removal exactly when the bytes do not wrap around, or not past the peak |
| HeapTrace.PeakAfterInsert | src/app/heap_trace.c:113-134 | an insertion restores the peak of its site; another site loses an earlier block as by a removal |
| HeapTrace.BelowWordSurvives | src/app/heap_trace.c:81-82 | a peak can fall behind only when the sum of the site's entries had passed the word size |
| HeapRuns.PeakFallsBehind | src/app/heap_trace.c:108-174 | a run of malloc and free, with large blocks released without the wrappers and none over a live one, after which a peak is below the live bytes |
| HeapRuns.ReallocAround | src/app/heap_trace.c:176-200 | what a realloc tracks when another thread's malloc comes between its two critical sections |
| HeapRuns.FailedAttach | src/app/heap_trace.c:187-190 | whatever came in between, the second half of a failed realloc tracks the block again exactly when an entry is free, and counts a drop otherwise |
| HeapRuns.FailedReallocKeeps | src/app/heap_trace.c:187-190 | after one malloc of another thread, exactly when that did not take the last entry |
| HeapRuns.FailedReallocLoses | src/app/heap_trace.c:108-198 | a run that fills the table and then loses a live block |
| HeapTrace.Tracer.constructor | src/app/heap_trace.c:30-41 | static storage satisfies the invariant, with nothing tracked |
| HeapTrace.Tracer.Initialize | src/app/heap_trace.c:47-60 | the first lock makes all slots free |
| HeapTrace.Tracer.Find | src/app/heap_trace.c:74-90 | a tracked pointer is found in its bucket with its predecessor, and nothing else is |
| HeapTrace.Tracer.Remove | src/app/heap_trace.c:67-91 | trace_remove removes exactly the pointer's block, returns it and discharges its site; every other site stays, and so does every peak |
| HeapTrace.Tracer.Insert | src/app/heap_trace.c:108-135 | trace_insert tracks the block and charges its site, dropped only when all entries are taken by others, and counts drops and replacements; the site's peak becomes the greater of what it was and the live bytes now, and no other peak changes |
| HeapTrace.Tracer.SiteOf | src/app/heap_trace.c:93-106 | a caller has one site; site 0 is used only when all sites are other callers' |
| HeapTrace.Tracer.Result | src/app/heap_trace.c:137-148 | a result is tracked under its caller, or under site 0 when all sites are other callers'; a failure is counted; known sites keep their callers |
| HeapTrace.Tracer.Free | src/app/heap_trace.c:165-174 | the block is removed, and an unknown pointer counted |
| HeapTrace.Tracer.ReallocDetach | src/app/heap_trace.c:176-181 | the block is detached before the allocator runs, with a site that stays known |
| HeapTrace.Tracer.ReallocAttach | src/app/heap_trace.c:184-198 | what the second critical section of realloc tracks, whatever happened in between |
| HeapTrace.Tracer.Realloc | src/app/heap_trace.c:176-200 | an undisturbed realloc that fails leaves the tracked blocks as they were; one that succeeds tracks the result under its caller |
| HeapPeaks.HighestIsMaximum | src/app/heap_trace.c:130-134 | the most live bytes after any charge of a site are a maximum |
| HeapPeaks.Run | src/app/heap_trace.c:47-200 | after any calls each peak is the most live bytes that its site had after any charge of it, and each counter is the number of calls of its kind, as a machine word |
| HeapReport.SitesAddUp | src/app/heap_trace.c:220-225 | the sites' bytes and blocks add up to those of all tracked blocks |
| HeapReport.Rank | src/app/heap_trace.c:232-247 | distinct sites, heaviest first, none heavier left out; fewer than twelve only when no bytes are left |
| HeapReport.Log | src/app/heap_trace.c:202-248 | the report's totals and ranking are those of the tracked blocks, which it leaves unchanged |
| EventQueue.PushClasses | src/app/event_queue.c:44-60 | a snapshot event replaces its waiting predecessor and no other event; an ordered one is appended |
| EventQueue.PushKinds | src/app/event_queue.c:5-60 | a push is refused exactly when 16 events other than the four notices of a change wait; otherwise a copy, with an address of at most 255 characters, is appended and replaces only an earlier notice of its kind |
| EventQueue.SelectedIsFirst | src/app/event_queue.c:65-75 | the least number among the heads is the first waiting event |
| EventQueue.EventRing.Reset | src/app/event_queue.c:32-42 | the queue is empty |
| EventQueue.EventRing.Add | src/app/event_queue.c:44-60 | a push on the ring and slots is a push on the sequence, refused exactly when 16 ordered events wait |
| EventQueue.EventRing.Head | src/app/event_queue.c:62-88 | peek moves the first waiting event to the head, or returns the retained head unchanged |
| EventQueue.EventRing.Release | src/app/event_queue.c:90-93 | acknowledge releases the head only |
| QueueRuns.OrderedEventsInOrder | src/app/event_queue.c:44-88 | over every sequence of calls, the accepted ordered events are those delivered and those waiting, in push order |
| QueueRuns.NothingForgotten | src/app/event_queue.c:5-60 | delivered and waiting events are in order of acceptance, and an accepted event missing there has a later one of its kind |
| QueueRuns.AcceptedArePushed | src/app/event_queue.c:16-30 | an accepted event is a copy of one that was pushed |
| QueueRuns.AcknowledgedIsNext | src/app/event_queue.c:62-93 | after an acknowledgement the next peek takes the first waiting event |
| QueueRuns.HeadStays | src/app/event_queue.c:62-93 | the peeked head stays until it is acknowledged, whatever is pushed |
| ConnectionService.BeginOwned | src/services/connection_service.cpp:104-119 | an operation begins exactly when the service is free and the dialog opened |
| ConnectionService.PrepareOwned | src/services/connection_service.cpp:269-296 | a prepared completion releases the operation and its dialog, and nothing else does |
| ConnectionService.CompletionShows | src/services/connection_service.cpp:269-296 | a prepared completion shows an error exactly when it reports a failed connect or stream, and asks for a remote quit exactly when it names another application, if no error was shown |
| ConnectionService.JobEventCompletes | src/services/connection_service.cpp:304-322 | the made-up event completes the operation with its worker's result and the host's address |
| ConnectionService.ConfirmsOnlyConflicts | src/services/connection_service.cpp:209-222 | a remote quit is asked for only when another application was found running |
| ConnectionService.ForegroundService.BeginOperation | src/services/connection_service.cpp:104-119 | a busy service is unchanged; otherwise the operation owns the dialog, or nothing if that did not open |
| ConnectionService.ForegroundService.FinishUnstartedOperation | src/services/connection_service.cpp:260-267 | the operation ends without a completion |
| ConnectionService.ForegroundService.PrepareCompletion | src/services/connection_service.cpp:269-296 | a completion is held back until the worker returned, and releases the operation |
| ConnectionService.ForegroundService.RecordWorkerResult | src/services/connection_service.cpp:298-302 | the result is stored before it is announced |
| ConnectionService.ForegroundService.GetCompletedJobEvent | src/services/connection_service.cpp:304-322 | the fallback event for a finished worker |
| Completion.RunKeeps | src/app/moonlight_app.cpp:300-377 | every interleaving of main thread, worker and other events keeps the invariant |
| Completion.CompletedOnce | src/services/connection_service.cpp:269-322 | no operation is completed twice or before its worker recorded the result that the completion tells; the event is made up exactly when the worker's was not queued, and then has the host's address; the completing events dispatched are the completions |
| Completion.DialogOwned | src/services/connection_service.cpp:98-119 | in every run the busy dialog is open exactly while an operation owns it, in particular from the start of a job until its completion is prepared |
| Completion.WorkersReturn | src/services/connection_service.cpp:298-322 | a connect and a list have a worker, whose result is recorded and then told |
| Completion.ErrorsAreShown | src/services/connection_service.cpp:225-373 | in every run errors are shown one at a time; a pending one is opened as soon as no busy dialog is open, and when it is closed nothing of it, and no question about a remote quit, is left |
| Completion.NothingLeft | src/app/moonlight_app.cpp:324-328 | the loop ends with nothing to do only when every recorded operation is completed |
| Completion.HeldBackOnlyWhileRunning | src/app/moonlight_app.cpp:350-352 | the loop retains a completion exactly while the worker has not recorded its result |
| Completion.PassCompletes | src/app/moonlight_app.cpp:315-377 | a recorded operation is completed by the next undisturbed pass |
| DnsName.Masks | src/backend/legacy/mdns/udp_sniffer_vita.c:35-43 | the bit masks, read as numbers |
| DnsName.ExpandsToRoot | src/backend/legacy/mdns/udp_sniffer_vita.c:31-56 | expansion succeeds only by reaching a root label, item by item |
| DnsName.BoundFindsRevisit | src/backend/legacy/mdns/udp_sniffer_vita.c:31 | a traversal stopped by the bound has visited a position twice |
| DnsName.RevisitNeverEnds | src/backend/legacy/mdns/udp_sniffer_vita.c:25-26 | such a traversal reaches no root label |
| DnsName.Decode | src/backend/legacy/mdns/udp_sniffer_vita.c:27-58 | success exactly when unbounded expansion reaches the root and the text fits; then the dotted name and the encoded length |
| DnsWire.RootRoundTrip | src/backend/legacy/mdns/udp_sniffer_vita.c:27-58 | a name that was sent in full expands to its labels, wherever it stands, and takes the bytes that were sent |
| DnsWire.PointerRoundTrip | src/backend/legacy/mdns/udp_sniffer_vita.c:35-43 | a name whose end is a pointer expands to its labels and those at the target, and takes two bytes for the pointer |
| DnsWire.TextIsDotted | src/backend/legacy/mdns/udp_sniffer_vita.c:44-52 | the text has a dot between any two labels |
| DnsWire.DecodesWhatWasSent | src/backend/legacy/mdns/udp_sniffer_vita.c:27-58 | a name that was sent is decoded to its dotted text exactly when that fits |
| XmlHandlers.NumberAccepts | src/moonlight/gamestream_xml.c:36-51 | digits between spaces are accepted exactly up to INT_MAX, with their value |
| XmlHandlers.AcceptedIsNumeral | src/moonlight/gamestream_xml.c:36-51 | nothing else is accepted |
| XmlHandlers.NumberOfDecimal | src/moonlight/gamestream_xml.c:36-51 | the decimal digits of a number, behind any zeros and between any spaces, are read as that number up to INT_MAX |
| XmlHandlers.NumberIsDecimal | src/moonlight/gamestream_xml.c:36-51 | nothing else is read as a number |
| XmlHandlers.ParseNumber | src/moonlight/gamestream_xml.c:36-51 | the loops compute that number, and their overflow check is exact |
| XmlParseContext.ParseContext.StartElement | src/moonlight/gamestream_xml.c:67-121 | start_element takes the context to what the tree proofs use, rejections included |
| XmlParseContext.ParseContext.CharacterData | src/moonlight/gamestream_xml.c:123-136 | a title is clipped, another field that is too long rejected |
| XmlParseContext.ParseContext.FinishTitle | src/moonlight/gamestream_xml.c:138-151 | the title is cut at a character boundary |
| XmlParseContext.ParseContext.EndField | src/moonlight/gamestream_xml.c:157-181 | a field is read once, or rejected by its own rule |
| XmlParseContext.ParseContext.EndElement | src/moonlight/gamestream_xml.c:153-194 | end_element takes the context to what the tree proofs use; an application is stored while there is room |
| XmlParseContext.ParseContext.HandleEvents | src/moonlight/gamestream_xml.c:203-214 | handling a stream of events is the fold of the handlers |
| XmlParseContext.ParseApplications | src/moonlight/gamestream_xml.c:222-238 | the result, the stored applications and their number are those of the schema, and the status and the message those of the root |
| XmlParseContext.ParseLaunch | src/moonlight/gamestream_xml.c:240-258 | the result and the session URL are those of the schema, for launch, resume and cancel, and the status and the message those of the root |
| XmlSchema.FeedHandlesEvents | src/moonlight/gamestream_xml.c:203-214 | walking the tree is handling its events |
| XmlSchema.Ignored | src/moonlight/gamestream_xml.c:89-111 | below other elements only a misplaced App matters |
| XmlSchema.FieldText | src/moonlight/gamestream_xml.c:123-136 | a field takes the concatenation of its chunks, and no nested element |
| XmlSchema.AppContent | src/moonlight/gamestream_xml.c:94-111 | the children of an App are read by the schema |
| XmlSchema.ListContent | src/moonlight/gamestream_xml.c:182-192 | the first applications are stored, all are counted, in document order |
| XmlSchema.ParseMeansSchema | src/moonlight/gamestream_xml.c:203-238 | for every tree, OK exactly when it meets the schema, with the first `capacity` applications and the number of all |
| XmlSchema.ParseMeansLaunch | src/moonlight/gamestream_xml.c:112-119 | for every tree, OK exactly when the status is 200, the result field is there once with the value 1, and a session URL is valid |
| XmlSchema.AppMeans | src/moonlight/gamestream_xml.c:94-111 | an application has exactly one ID and one title, each of text only |
| XmlSchema.AppsMean | src/moonlight/gamestream_xml.c:89-111 | a list is one whose App elements all are applications and whose other elements hold none; its applications are those, in document order |
| XmlSchema.LaunchMeans | src/moonlight/gamestream_xml.c:112-181 | a response is OK exactly when its status is 200 and it has one result field with the value 1 and at most one session URL, a valid one |
| XmlSchema.StatusDecides | src/moonlight/gamestream_xml.c:74-88 | a list whose status_code is a number between 1 and INT_MAX is read exactly when that is 200, and otherwise an error of the server |
| XmlSchema.StatusDecidesLaunch | src/moonlight/gamestream_xml.c:74-88 | so is a launch or cancel response |
| XmlSchema.BadStatus | src/moonlight/gamestream_xml.c:74-88 | a response whose status is missing or not a number is refused |
| XmlSchema.OneMessage | src/moonlight/gamestream_xml.c:80-83 | the message is the value of its attribute, cut to 255 bytes |
| XmlSchema.Schemes | src/moonlight/gamestream_xml.c:172-173 | the two schemes of a session URL |
| XmlSchema.UrlMeans | src/moonlight/gamestream_xml.c:170-180 | a session URL is one of them, something behind it, and no space |
| XmlSchema.ChunksDoNotMatter | src/moonlight/gamestream_xml.c:123-136 | the outcome does not depend on how text is split |
| XmlSchema.ChunksDoNotMatterToLaunch | src/moonlight/gamestream_xml.c:123-136 | the same for launch and cancel responses |
| XmlSchema.TitleIsLongest | src/moonlight/gamestream_xml.c:138-151 | the stored title is the longest valid prefix that fits |
| Utf8.WholeIsLongest | src/moonlight/gamestream_xml.c:138-148 | the whole characters before a bound form the longest valid prefix |
| Utf8.TitleLength | src/moonlight/gamestream_xml.c:139-148 | the backward scan of finish_title |
| Utf8.MessageLength | src/backend/legacy/legacy_gamestream.c:945-954 | the look-ahead cut of the status message |
| Utf8.SameBoundedCopy | src/backend/legacy/legacy_gamestream.c:945-954 | for valid text both keep the longest valid prefix of at most 255 bytes, hence the same |
| Utf8Scalars.ValidIsEncoded | src/moonlight/gamestream_xml.c:139-148 | valid text is the encoding of a sequence of scalar values, whose characters are never cut |
| Utf8Scalars.EncodedIsValid | src/moonlight/gamestream_xml.c:139-148 | and every such encoding is valid |
| StreamStats.WindowsAdd | src/moonlight/stream_stats.c:368-370 | two adjacent windows of the log add up to one |
| StreamStats.AdvanceKeeps | src/moonlight/stream_stats.c:54-67 | after any number of seconds the buckets hold the clock's second and the one before |
| StreamStats.SlidingWindow | src/moonlight/stream_stats.c:363-370 | both buckets are the log of the last one to two seconds, of less than one at first |
| StreamStats.TallyIsTotal | src/moonlight/stream_stats.c:162-172 | the session's counters are the sums over the whole log |
| StreamStats.LossIsDistance | src/moonlight/stream_stats.c:167-178 | missing and advancing frames are the distance from the first to the highest true number, through any wrap-around |
| StreamStats.UnwrappedIsNear | src/moonlight/stream_stats.c:168-170 | every sequence of 32-bit numbers has true numbers within half the range of the highest before |
| StreamStats.NearIsUnique | src/moonlight/stream_stats.c:168-170 | and only one such sequence for its first number |
| StreamStats.AnyLossIsDistance | src/moonlight/stream_stats.c:167-178 | so for any received numbers the counts are that distance |
| StreamStats.LossLeadsToBase | src/moonlight/stream_stats.c:167-178 | for any numbers they lead from the first to the current base |
| StatsRecorder.BucketPair.Advance | src/moonlight/stream_stats.c:54-67 | advance_window keeps the buckets in step with the log |
| StatsRecorder.BucketPair.Record | src/moonlight/stream_stats.c:155-267 | a recorder's changes to the current bucket are one entry of the log |
| StatsRecorder.BucketPair.Snapshot | src/moonlight/stream_stats.c:349-406 | every rate is that of the log within the span of the reading: the current second so far and the full one before |
| StatsRecorder.Recorder.Begin | src/moonlight/stream_stats.c:91-120 | a new, nonzero generation with an empty log |
| StatsRecorder.Recorder.RecordReceived | src/moonlight/stream_stats.c:155-200 | an accepted frame is logged at the clock with the frames lost before it and counted in the session; a stale generation changes nothing |
| StatsRecorder.Recorder.Record | src/moonlight/stream_stats.c:202-335 | the same for the other events |
| StatsRecorder.Recorder.Snapshot | src/moonlight/stream_stats.c:349-406 | the reading of a session |
| StatsRuns.Run | src/moonlight/stream_stats.c:91-406 | after any calls of any sessions, readings among them, a reading shows the rates of the accepted events of the last session within its span, and its counters are those of the accepted events |
| StatsRuns.AcceptedIsRunning | src/moonlight/stream_stats.c:69-120 | events are accepted exactly with the generation of the session that has begun last and has not ended; generations count sessions in 32 bits without 0 |
| StatsReadings.RatesMean | src/moonlight/stream_stats.c:370-376 | incoming, decoded and submitted frames per second and megabits per second, of the received frames, of the outputs of calls that did not fail, of the presented frames and of the payload in the span |
| StatsReadings.PercentagesMean | src/moonlight/stream_stats.c:377-382 | missing frames of those that should have come, dropped ones of the decoded, replaced ones of those offered |
| StatsReadings.TimesMean | src/moonlight/stream_stats.c:336-347 | each time is the average and the maximum of its samples in the span |
| StatsReadings.LatenciesMean | src/moonlight/stream_stats.c:383-395 | the number, least, greatest and average of the latencies that the host reported |
| HostListEdits.NextEdit | include/pages/host_list.h:62-79 | an unwanted cell is deleted first; then the first difference is moved or inserted; done only when the desired cells are in place |
| HostListEdits.OnePlan | include/pages/host_list.h:62-79 | what the planner answers is fixed by the cells: the last unwanted cell, or the nearest cell for the first difference |
| HostListEdits.ShiftUp | src/pages/page_main.cpp:663-668 | the shift loop is a move |
| HostListEdits.Refresh | src/pages/page_main.cpp:654-676 | for any cells the loop ends, after at most as many edits as there were and are cells; the edits bring the list view to the same cells, are exact, and reach the desired cells if and only if no token has too many |
| HostListEdits.PlansProgress | src/pages/page_main.cpp:657-676 | after any answers of the planner the edits replay, no wanted token was deleted, and an inserted one is there no more often than wanted |
| HostListEdits.ExactEdits | src/pages/page_main.cpp:654-676 | when the planner is done, exactly the unwanted cells were deleted and exactly the missing ones inserted, with their numbers; the desired cells lead, and nothing follows them if and only if no token had too many |
| HostListEdits.SurplusStays | include/pages/host_list.h:66-78 | two cells of one token stay two when one is wanted |
| HostRows.SameHostMeans | include/pages/host_list.h:34-52 | ids decide, then MAC addresses, then a port and a shared address; the relation is symmetric, and reflexive for a host with an id, a MAC or an internal address |
| HostRows.PrepareRows | src/pages/page_main.cpp:613-632 | a row keeps the token of the first earlier row that is the same PC, if that is of the same kind; any other row gets a new token, in increasing order |
| HostRows.TokensDistinct | src/pages/page_main.cpp:613-632 | the tokens are distinct if and only if no two rows keep one token |
| HostRows.DistinctNoSurplus | src/pages/page_main.cpp:654-676 | from cells with distinct tokens the edit loop reaches the desired ones |
| HostRows.SharedToken | src/pages/page_main.cpp:588-676 | a saved PC with two addresses, then two PCs with one each, then one of them: the list view keeps two cells for one row |
| HostDiscovery.FreshOnlyKeeps | src/backend/legacy/legacy_host_discovery.c:80-92 | the filter keeps what is fresh and nothing else |
| HostDiscovery.Discovery.Start | src/backend/legacy/legacy_host_discovery.c:170-204 | a new lease after a pause has the next generation and a new revision with the same hosts; a renewed one, or a failure, changes nothing readable |
| HostDiscovery.Discovery.Stop | src/backend/legacy/legacy_host_discovery.c:206-212 | no generation is active any more, and hosts and snapshot stay |
| HostDiscovery.Discovery.Read | src/backend/legacy/legacy_host_discovery.c:229-240 | equal generation and revision mean an equal snapshot, so after any reading the copy is current |
| HostDiscovery.ReportedUnique | src/backend/legacy/legacy_host_discovery.c:55-68 | a report keeps the hosts unique by route exactly when its address fits, there is no room, or its clipped route is new |
| HostDiscovery.LongAddressTwice | src/backend/legacy/legacy_host_discovery.c:55-68 | why an address has to fit: one that does not would be stored again each time |
| HostDiscovery.Discovery.OnHost | src/backend/legacy/legacy_host_discovery.c:44-78 | hosts and ages after a report; the hosts stay fresh, and unique as long as addresses fit; the revision changes exactly when the hosts do |
| HostDiscovery.Discovery.Expire | src/backend/legacy/legacy_host_discovery.c:80-92 | the shifts in place are an order-preserving filter of hosts and ages |
| HostDiscovery.Discovery.Tick | src/backend/legacy/legacy_host_discovery.c:139-145 | time passes and hosts expire only while polling is healthy and leased |
| DiscoveryRuns.Dotted | src/backend/legacy/mdns/udp_sniffer_vita.c:246-249 | a reported address has at most 15 characters |
| DiscoveryRuns.HostsAreRight | src/backend/legacy/legacy_host_discovery.c:44-156 | in every reachable state the hosts, and those that a reader has, are unique by route; a route is listed exactly while its last stored report is fresh, with that report's name and time |
| DiscoveryRuns.ListedForFifteenSeconds | src/backend/legacy/legacy_host_discovery.c:80-92 | a route is listed exactly while its last stored report is less than 15 seconds of healthy time old |
| DiscoveryRuns.LeaseMeans | src/backend/legacy/legacy_host_discovery.c:39-43 | a search is active for a quarter of a second after it was last started, unless it was stopped |
| DiscoveryRuns.GenerationMeans | src/backend/legacy/legacy_host_discovery.c:170-204 | a search that is still active keeps its generation, and any other gets the next one |
| DiscoveryRuns.Run | src/backend/legacy/legacy_host_discovery.c:39-254 | after any calls of users, worker and sniffer the cache and a reader have exactly these hosts |
| TouchPoints.ReplayIsBracketed | src/moonlight/vita_touch.c:159-169 | events that replay are DOWN, MOVEs, UP for each contact |
| TouchPoints.HalfThePanel | src/moonlight/vita_touch.c:149-157 | each coordinate is half of the panel's, toward zero, and inside the screen |
| TouchPoints.FrameIds | src/moonlight/vita_touch.c:149-174 | the events of a frame are in place exactly when no new contact is reported twice; then the host has the frame's contacts |
| TouchPoints.InStepExactly | src/moonlight/vita_touch.c:149-174 | the host has them at their positions if and only if each contact that was down leaves its place at the end, or never left the place that both sides knew |
| TouchPoints.DistinctFollows | src/moonlight/vita_touch.c:149-174 | a frame without repeated ids is always followed |
| TouchPoints.LaterReportIsLost | src/moonlight/vita_touch.c:149-164 | a frame with ids 1 and 9 after which the host has contact 1 elsewhere than the points do |
| TouchPoints.DownTwice | src/moonlight/vita_touch.c:149-164 | the same frame on a free panel sends DOWN twice |
| TouchPoints.Touch.Process | src/moonlight/vita_touch.c:138-175 | for every frame the points are its contacts, and so is the host under exactly that condition |
| TouchPoints.Touch.Release | src/moonlight/vita_touch.c:45-74 | after a release no point is active, and a host whose events were in place has no contact |
| TouchPoints.Touch.Stop | src/moonlight/vita_touch.c:126-136 | stopping releases the contacts once, and does nothing when not started |
| TouchPoints.Touch.Poll | src/moonlight/vita_touch.c:233-254 | a frame is processed only between start and stop, and only when it could be read |
| VideoGeometry.FitInside | src/moonlight/vita_video_renderer.c:95-138 | the fitted size lies inside the screen, in multiples of 16: a frame wider in shape gets the screen's width and the least height that is scaled alike, a narrower one its height |
| VideoGeometry.CoverContains | src/moonlight/vita_video_renderer.c:95-138 | the covering size contains the screen and exceeds it in at most one dimension, with the sides scaled alike |
| VideoGeometry.Centred | src/moonlight/vita_video_renderer.c:725-728 | the margins on both sides are equal |
| VideoGeometry.Renderer.CalculateOutputSize | src/moonlight/vita_video_renderer.c:95-138 | the sizes set are those |
| VideoGeometry.AllocatedHolds | src/moonlight/vita_video_renderer.c:324-327 | the allocation is a whole number of blocks that holds the frame, and less than a block more |
| VideoGeometry.Renderer.Crop | src/moonlight/vita_video_renderer.c:724-754 | moving rows in place leaves exactly the centred window of the frame, in a buffer of any greater length, and what is behind it |

## Left out

- The application id of a stream event: the reset at src/moonlight/api.cpp:214-217 can fall between the store at line 640 and the admission of the next session, so no claim is made about it.
- The API is modelled on values, with one step for each call or write; a class would not show the interleavings. Application lists, host records and PINs are left out of its state.
- Controller light, session statistics, settings and logging in the stream session, and a second initialization of the API (src/moonlight/api.cpp:269-278).
- HeapTrace.Tracer.Realloc: states an undisturbed call; ReallocDetach and ReallocAttach state each half for any interleaving, and HeapRuns.ReallocAround one with a call in between.
- The spin lock of the tracer, and a block's address being reused by an allocation that bypasses the wrappers other than as a replaced entry.
- EventQueue.EventRing.Add: the 64-bit sequence number is unbounded, so it does not wrap around.
- Resetting the queue during a run, and the shutdown of the foreground service.
- The filter that drops discovery events for a page that is not shown, dialog texts, and the launch operation's completion beyond its effect on the service.
- DnsName.Decode: null pointers are not modelled; the message is its first `msglen` bytes.
- The record walk and the table of the mDNS sniffer, and its sockets.
- XmlParseContext.ParseContext.CharacterData: the 256-byte buffer is a sequence of at most 255 bytes; zero bytes, which XML does not allow, are not modelled.
- A document that Expat cannot parse is only a flag of the outcome; document types, which are rejected, are part of it.
- StatsRecorder.BucketPair.Snapshot: rates are real numbers, and counters and the clock are unbounded; the stream warning is left out.
- StatsRecorder.Recorder.Record: error counts, round-trip times and the output size are left out, as are the recorders that change nothing else but advance the window.
- HostRows.PrepareRows: token numbers are unbounded, so they do not wrap around.
- Focus, selection marks, templates and texts of the list view.
- HostDiscovery.Discovery.Read: the 32-bit revision is unbounded, so it does not wrap around.
- The worker's query schedule, its condition variable and joining it.
- TouchPoints.Touch.Process: the mouse modes are left out; a host that met an event out of place is not expected to recover at a later cancellation.
- VideoGeometry.FitInside: source sizes below 2^16, for which the 32-bit sizes are not cut.
- VideoGeometry.Renderer.Crop: a pixel is one element rather than four bytes.
- Device identity merging, host availability jobs, the PS-button machine, decoder memory, pairing cryptography, audio and motion.

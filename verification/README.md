# RProxy stream engine, in Dafny

A model of RProxy's HTTP stream engine and of the stateful parts around it, with proofs of
what they promise. `dafny verify dfyconfig.toml` checks everything.

**The filter chain.** A stream has a chain of decoder filters for the request and a chain of
encoder filters for the response. A filter may pass, stop one step, stop everything, buffer,
discard, add a body or abort, and a stopped filter may later resume the chain from its own
position; resumption calls back into the iteration, which may resume again. `EncoderChain`
and `DecoderChain` give each loop as a function on the manager's state, `FilterManager` is
the object with the loops as loops, and every method of it ends in the state the functions
give. Filters, the codec and the connection manager's close callback are an `Oracle`: every
answer may depend on everything that happened before, so a statement about all oracles is a
statement about all schedules. `Protocol` says what a filter and the codec may see, as
automata over the event log that know nothing of the engine. `FilterRuns` closes this under
every interleaving of whole request and response calls; `FilterTheorems`, `RequestTheorems`,
`WedgeTheorems`, `AbortTheorems`, `ViewTheorems` and `RequestViewTheorems` hold the results. The
modules between state what each loop keeps, one invariant each: order (`EncoderProtocol`,
`DecoderProtocol`), the end at most once and the closing of the stream (`EncoderEnd`), the end
handed on (`EncoderDelivery`, `DecoderDelivery`), bytes (`EncoderConservation`), what becomes of
them between one filter and the next (`EncoderCourse`, `DecoderCourse`) and what filters make of
them (`EncoderTransform`, `DecoderTransform`). `ByteStreams` reads off the log and the filters' own
replies what came in, what each filter was shown and what it passed on; `Courses` relates these to
a chain and its buffer, for either direction. The source's own assertions
hold where they stand: only stopped filters are resumed (the precondition of
`AllowIteration`), and the rows of `DataEntryLawful`, `DataEntryEnds` and `HeadersEntryLawful`
give the others; that a filter does not withdraw an end it was not shown is up to the filter.

**Around it.** `ConnectionManager` (tearing down streams, draining), `LocalReply`,
`CodecClient` and `StreamCallbacks` (the upstream side: active requests, reset and watermark
callbacks), `Decompressor`, `HostMaps` (copy-on-write snapshots and reference counts),
`LogFormat`, `PoolKey`, `Authority`. Objects whose fields the source updates are classes here.

Widths and wrap-around: the seed of a pool key is reduced modulo 256, a port modulo 65536 and
a number read from text saturates at 2^64 - 1, as in the source; counters are unbounded.

## Where the code falls short of the property

- End of stream. A filter that stops everything on headers that end the stream, and whose
  chain has a body in the buffer when it resumes, starts the data at itself, where its own
  end-stream flag turns it away: neither the body nor the end goes on. `Wedged` is that state,
  checkable before the resume. `EndIsLostIffWedged` and, for the request,
  `RequestEndIsLostIffWedged` show that the last resume of a run delivers the end if and only
  if the filter is not wedged; `WedgeLosesEnd` and `WedgeLosesRequestEnd` that nothing the other
  filters do helps; `WedgeIsReachable` and `RequestWedgeIsReachable` give runs. `AfterWedge` says
  what follows the first wedge of a response: with nothing stopped the end is lost for good, and
  otherwise the filters that are stopped behind the wedged one bring it on again.
- Completion of the request. A last decoder filter that adds a body to a headers-only request
  and passes it on leaves the chain incomplete for good (`CompletionIsLost`).
  `RequestCompletesIff`: once that filter has seen the end, an unaborted chain is complete if
  and only if it did not.
- An aborted response. The iteration stops at the filter that aborts, but a resume does not ask
  whether the response was aborted (`AbortedResponseEscapes`). `AbortedResponseCrawls` gives the
  exact condition under which the codec hears of it again.
- Closing. The model's log takes note when a direction is completed: of the response, whether the
  request was done with at that time, being complete, aborted or all in, or the response an
  error; of the request, whether it had been aborted. `EveryRunClosesOnce`: with half-close the
  stream has been ended if and only if the response was completed and the request was done with
  at that time or was completed without being aborted. A request that is aborted after the
  response was complete leaves the stream open for ever (`LateAbortLeavesOpen`,
  `EndAndAbortAreFinal`).
- What each filter sees of the response. At the codec bytes are conserved whatever is stopped: there is one buffer
  and it is only appended to and drained whole. A single filter is worse off, since every resume
  passes the whole buffer on from its own position. If some of it waits elsewhere, filters in
  between are shown it twice (`HeldByteIsShownTwice`), even if the resumed filter holds no byte
  itself (`EmptyStopRepeats`), or it goes past a filter that is never shown it
  (`ByteGoesPastFilter`); `MisplacedResume` tells the two cases apart.
  `EveryFilterSeesEveryByteOnce` is exact, with any number of filters stopped: after every step
  what came in, what the filters have been shown in turn and what the codec got are each the
  beginning of the one before, if and only if no step resumes a filter while bytes wait
  elsewhere than in front of it, unless the next filter takes nothing or all is over. For filters
  that discard and rewrite as well, `FiltersCompose` says the same of what each one passes on by
  its own replies and what the next one is shown, and `FiltersComposeIff` that this is exact unless
  a filter makes bytes out of an empty buffer.
- What each filter sees of the request. The same holds (`RequestFiltersCompose`,
  `RequestFiltersComposeIff`, `EveryFilterSeesTheRequestOnce`), but nobody empties the request
  buffer behind the last filter: unless that filter drains it, bytes that have been through stay
  there. A filter that stops and resumes twice then has the ones behind it shown the first body
  again, though no other filter ever stopped (`PassedByteIsShownAgain`).
- Watermarks. A callback registered from inside runs has the marks in force replayed and is then
  visited by those runs as well: it ends up off by the highs less the lows that were under way
  (`LateRegistrationIsOff`); `MarkBalance` shows the balance is kept if and only if no callback is
  left for which that is not nought. The reset is tested for only when a run starts, so a
  callback that resets the stream from inside a run has later ones told of the mark after their
  reset (`MarkFollowsReset`); `MarksAfterResetIff` gives the exact condition.
- Content-Length. Only the first header of a name is replaced, so a local reply is framed by
  exactly one Content-Length if and only if the hooks left at most one (two for an empty
  body, where the code removes one more); `UnframedReply` is a reply with two. The same holds
  for `Connection` (`ReplacedOnce`, `SecondStays`): an HTTP/1.0 response with two `Connection`
  headers on a draining connection goes out saying both keep-alive and close
  (`ConnectionManager.Manager.EncodeHeaders`, `ReplacedTwice`).
- Log formats. The tag type is an enumeration without negative values, so with an unsigned
  representation the test for an unknown tag never holds and an uninitialised length is used
  (`UnknownTag`). A header name without its closing quote makes the compiler read past the
  format (`Overrun`). `OutcomeIff` says exactly which formats these are, `BadFormats` names two.
- `rp_filter_manager_maybe_end_encode_` ends the request, not the response
  (`src/rp-filter-manager.c:1496-1501`); the closure results are about the filter-chain path.

## Model

| member | source | states |
|---|---|---|
| FilterTheorems.EveryRunIsOrderly | src/rp-filter-manager.c:781-1228 | on every run, of any filters: each filter of both directions and the codec get headers once and before data, and nothing after the end; at every point of the log headers reach a filter only after all filters before it, and the codec after all of them; complete callbacks come once and only after the end; no decoder filter is called once decoding is aborted; a filter in Continue state has passed its headers on |
| FilterTheorems.EveryRunClosesOnce | src/rp-filter-manager.c:743-779 | on every run the stream is ended at most once, with the response complete and, under half-close, the request complete or aborted; it has been ended if and only if the response was completed and, under half-close, the request was then complete, aborted or all in or the status below 100 or 300 and up, or has been completed without being aborted; for an unaborted request that is when both are complete, and a completed response with such a status always ends it |
| FilterTheorems.LateAbortLeavesOpen | src/rp-filter-manager.c:743-779 | a run with half-close in which the request is aborted after the response was complete, and the stream is never ended |
| EncoderEnd.CheckAndCloseSealed | src/rp-filter-manager.c:1546-1580 | a close check ends the stream if and only if the response is complete and the request is complete, aborted, all in, or the status is below 100 or 300 and up |
| FilterTheorems.EarlyEndAborts | src/rp-active-stream-decoder-filter.c:71-105 | an end of response aborts an incomplete request: always without half-close, and with it when it comes from a filter other than the last |
| FilterTheorems.EndAndAbortAreFinal | src/rp-filter-manager.c:743-1228 | from any reachable state, in any further run, no end-stream flag goes back and an aborted direction stays aborted; once the response is complete and the request aborted, whether the stream was ended never changes |
| AbortTheorems.AbortedResponseCrawls | src/rp-active-stream-encoder-filter.c:142-150 | after a filter has aborted the response, on every run: a push calls at most the first filter and that once, a resume at most its own filter and the next, and the codec hears of the response if and only if the last filter is resumed while it withholds the headers or with a body to go on with |
| AbortTheorems.AbortedResponseIsSilent | src/rp-filter-manager.c:1046-1080 | so in any further run that never resumes the last filter the codec hears nothing more |
| AbortTheorems.AbortedResponseEscapes | src/rp-active-stream-encoder-filter.c:142-150 | a run of one aborting filter whose resume carries the aborted response to the codec |
| FilterTheorems.BytesAreConserved | src/rp-filter-manager.c:1143-1228 | for filters that do not drop or rewrite, what the codec was handed followed by the shared buffer is what came in, in order; while the response is open nothing is buffered unless a filter is stopped |
| FilterTheorems.EndIsDeliveredOnce | src/rp-filter-manager.c:1023-1228 | when the whole response has come in and no filter is stopped any more, every filter and the codec have seen the end, once, and every filter its complete callback, on every run without a wedged resume |
| RequestTheorems.RequestEndIsDeliveredOnce | src/rp-filter-manager.c:781-973 | likewise for the request and its decoder filters while decoding is not aborted, and then the chain is complete if and only if the last filter injected no body |
| RequestTheorems.RequestCompletesIff | src/rp-filter-manager.c:844-867 | on every run, of any filters: once the last decoder filter has seen the end and while decoding is not aborted, the chain is complete if and only if that filter did not add a body to headers that ended the request and let that end stand |
| RequestTheorems.CompletionIsLost | src/rp-filter-manager.c:844-852 | a run of one filter that adds a body and passes it on, after which the request is all in, nothing is stopped and the chain is incomplete |
| RequestTheorems.RequestResumeDeliversIff | src/rp-active-stream-filter-base.c:327-376 | the last resume of the request shows the end to every filter if and only if the resumed one is not wedged |
| RequestTheorems.RequestEndIsLostIffWedged | src/rp-active-stream-filter-base.c:327-376 | the same at the last resume of any run that met no wedge before |
| RequestTheorems.WedgeLosesRequestEnd | src/rp-filter-manager.c:896-911 | after a wedged resume the next decoder filter has not seen the end, whatever the filters answer |
| RequestTheorems.RequestWedgeIsReachable | src/rp-filter-manager.c:896-911 | a run of two decoder filters that ends with nothing stopped, a body buffered and no end at the second filter |
| WedgeTheorems.AfterWedge | src/rp-active-stream-filter-base.c:327-376 | after the first wedge of a run the codec has no end; if nothing is stopped it gets none in any further run; if filters behind are stopped it has it once they have resumed, none of them wedged |
| FilterTheorems.EveryByteIsDelivered | src/rp-filter-manager.c:1143-1228 | then also every byte that came in has reached the codec |
| ViewTheorems.EveryFilterSeesEveryByteOnce | src/rp-filter-manager.c:1143-1228 | for filters that neither drop, rewrite nor add, on every run, however many are stopped: input, what each filter has been shown in turn and the codec's bytes are each the beginning of the one before after every step, if and only if no step resumes a filter out of place; then, when nothing is stopped, all have seen all |
| ViewTheorems.FiltersCompose | src/rp-filter-manager.c:1143-1228 | on a run of filters that stop, discard and rewrite as they like but neither abort nor add, with no resume out of place: after every step the first filter has been shown the beginning of what came in, and every other filter and the codec the beginning of what the one before passed on by its own replies, held bytes first; when nothing is stopped, all of it |
| ViewTheorems.FiltersComposeIff | src/rp-active-stream-filter-base.c:359-398 | if these filters make nothing out of an empty buffer, bytes are in this order after every step if and only if no step resumes a filter out of place |
| ViewTheorems.CollectedByteIsSent | src/rp-decompressor-filter.c:229-247 | a run in which a filter discards one chunk and rewrites the next as it lets data pass: the codec gets the rewritten bytes and nothing else |
| ViewTheorems.MisplacedResume | src/rp-active-stream-filter-base.c:359-368 | bytes that all wait in front of one filter and are passed on from elsewhere: from before it they are shown a second time, from behind it they go past it |
| ViewTheorems.HeldByteIsShownTwice | src/rp-active-stream-filter-base.c:359-368 | a run in which an earlier filter stops while a later one holds a byte, and the later one is shown that byte twice |
| ViewTheorems.ByteGoesPastFilter | src/rp-active-stream-filter-base.c:359-368 | a run that ends with nothing stopped in which the codec got a byte that the second filter was never shown |
| ViewTheorems.EmptyStopRepeats | src/rp-active-stream-filter-base.c:359-368 | a run in which a filter that stopped on an empty chunk resumes and the next one is shown again what it holds back |
| EncoderCourse.CommonContinueIff | src/rp-active-stream-filter-base.c:327-376 | of filters that stop, discard and rewrite, with bytes waiting in any number of places, a resume keeps what each is shown in order with what the one before passed on if all of them wait in front of the filter it starts from, or it passes none on; if filters make nothing out of an empty buffer, if and only if |
| EncoderCourse.PushIff | src/rp-filter-manager.c:1143-1228 | a push keeps it if, and under the same condition only if, it resumes no stopped filter out of place; bytes that it leaves waiting somewhere do not break it |
| EncoderCourse.CommonContinueHides | src/rp-active-stream-filter-base.c:327-376 | a resume shows nothing to the filters before it, and to the resumed filter only if it had stopped everything |
| EncoderCourse.SharedShows | src/rp-filter-manager.c:1143-1228 | the shared buffer, passed on from where all of it waits, comes to rest at one filter or at the codec, what each filter makes of it on the way shown to the next, and to none behind that place |
| RequestViewTheorems.RequestFiltersCompose | src/rp-filter-manager.c:868-973 | on a run of decoder filters that stop, discard and rewrite as they like but neither abort nor add, with no resume out of place: after every step the first has been shown the beginning of what came in and every other the beginning of what the one before passed on by its own replies; when nothing is stopped and decoding was not aborted, all of it |
| RequestViewTheorems.RequestFiltersComposeIff | src/rp-filter-manager.c:868-973 | if these filters make nothing out of an empty buffer, request bytes are in this order after every step if and only if no step resumes a filter out of place |
| RequestViewTheorems.EveryFilterSeesTheRequestOnce | src/rp-filter-manager.c:868-973 | for decoder filters that neither drop, rewrite, add nor abort, on every run: what came in and what each filter, the last one included, has been shown in turn are each the beginning of the one before after every step, if and only if no step resumes a filter out of place; then, with nothing stopped and no abort, all have seen all |
| RequestViewTheorems.PassedByteIsShownAgain | src/rp-filter-manager.c:868-973 | a run in which only the first of two filters ever stops, each time resumed before more comes, and the second is shown the first byte twice, because it was still in the request buffer |
| DecoderCourse.CommonContinueIff | src/rp-active-stream-filter-base.c:327-376 | a resume of a request filter keeps what each is shown in order with what the one before passed on if decoding is aborted, or all that is buffered waits in front of the filter it starts from, or it passes none on; if filters make nothing out of an empty buffer, if and only if |
| DecoderCourse.PushIff | src/rp-filter-manager.c:868-973 | a push of request data keeps it if, and under the same condition only if, it resumes no stopped filter out of place |
| DecoderCourse.CommonContinueHides | src/rp-active-stream-filter-base.c:327-376 | a resume of the request shows nothing to the filters before it, and to the resumed filter only if it had stopped everything |
| DecoderCourse.SharedShows | src/rp-filter-manager.c:868-973 | the request buffer, passed on from where all of it waits, comes to rest at one filter or behind the last, what each filter makes of it on the way shown to the next |
| FilterTheorems.EndIsLostIffWedged | src/rp-active-stream-filter-base.c:327-376 | the last resume of such a run delivers the end if and only if the filter it resumes is not wedged |
| FilterTheorems.ResumeDeliversIff | src/rp-active-stream-filter-base.c:327-376 | the same in any state that satisfies the run invariants |
| FilterTheorems.WedgeLosesEnd | src/rp-filter-manager.c:1168-1177 | after a wedged resume the codec has not seen the end, whatever the filters answer |
| FilterTheorems.WedgeIsReachable | src/rp-filter-manager.c:1159-1177 | a concrete run of one well-behaved filter that ends with nothing stopped, its body still buffered and no end at the codec |
| FilterRuns.StepInv | src/rp-filter-manager.c:1270-1388 | every push, every addition to a held body and every resume, in either direction, keeps the run invariant |
| FilterRuns.RunInv | src/rp-filter-manager.c:1270-1388 | so does every sequence of them, and it takes no end, completion or abort back |
| EncoderChain.HeadersLoop | src/rp-filter-manager.c:1023-1100 | the header iteration terminates, nested resumptions included, and leaves the filters before its first entry alone |
| EncoderChain.CommonContinue | src/rp-active-stream-filter-base.c:327-376 | a resume terminates, because everything it starts lies behind the resumed filter, and leaves the filters before it alone |
| EncoderChain.ResumeHeaders | src/rp-active-stream-filter-base.c:347-355 | passing withheld headers on changes of the resumed filter only that it has passed them |
| EncoderChain.ResumeData | src/rp-active-stream-filter-base.c:359-368 | passing buffered data on, from the filter itself after a stop-all, terminates and touches no earlier filter |
| EncoderChain.DataLoop | src/rp-filter-manager.c:1143-1228 | the data iteration terminates, with the start-from-current case and nested resumptions, and touches no earlier filter; what it shows and passes on is `ViewTheorems.FiltersCompose` |
| EncoderChain.DataEntry | src/rp-filter-manager.c:1161-1213 | one filter's turn changes that filter only, and only its end-stream flag and iteration state; a skipped filter is not called |
| EncoderProtocol.HeadersLoopLawful | src/rp-filter-manager.c:1034-1084 | headers in flight reach each remaining filter in order, once, and come to rest at a withholding filter or at the codec |
| EncoderProtocol.DataLoopLawful | src/rp-filter-manager.c:1159-1213 | data reaches only filters that have processed headers and not seen the end |
| EncoderProtocol.DataEntryLawful | src/rp-active-stream-filter-base.c:387-404 | a filter that lets data pass has passed its headers on, as asserted there |
| EncoderEnd.DataEntryEnds | src/rp-active-stream-filter-base.c:416-423 | a filter that is shown data once the whole message is in is shown its end, as asserted there |
| EncoderEnd.HeadersLoopSingle | src/rp-filter-manager.c:1034-1100 | the codec is told of the end at most once, and only if the message had ended or a body was added to it |
| EncoderEnd.CommonContinueSingle | src/rp-active-stream-filter-base.c:327-376 | so does a resume; no end-stream flag goes back and the shared buffer is never dropped |
| EncoderEnd.BarredData | src/rp-filter-manager.c:1173-1177 | behind a filter that has seen the end no data reaches the codec |
| EncoderDelivery.HeadersLoopDelivers | src/rp-filter-manager.c:1023-1100 | a header iteration hands the end from each filter to the next and on to the codec, or leaves it with a stopped one, bodies added on the way included |
| EncoderDelivery.CommonContinueDelivers | src/rp-active-stream-filter-base.c:327-376 | so does a resume without a wedge |
| EncoderDelivery.DataLoopDelivers | src/rp-filter-manager.c:1143-1228 | so does a data iteration that carries the end, a discarded last chunk included |
| EncoderTransform.DataLoopComposes | src/rp-filter-manager.c:1143-1228 | filters that pass data on hand the codec the composition of what each does to the bytes, in chain order |
| DecoderTransform.DataLoopShows | src/rp-filter-manager.c:870-973 | each decoder filter is shown what the filters before it made of the bytes |
| DecoderDelivery.HeadersLoopHands | src/rp-filter-manager.c:781-868 | a request's header iteration hands the end from filter to filter, or leaves it with a stopped one, and completes the chain at the last |
| DecoderDelivery.CommonContinueHands | src/rp-active-stream-filter-base.c:327-376 | so does a request-side resume without a wedge |
| DecoderDelivery.DataLoopHands | src/rp-filter-manager.c:870-973 | so does a data iteration |
| EncoderConservation.CommonContinueAccounted | src/rp-active-stream-filter-base.c:327-376 | a resume keeps the balance of bytes, and leaves bytes buffered only behind a stopped filter, after the end or after a reset |
| EncoderConservation.DataLoopAccounted | src/rp-filter-manager.c:1143-1228 | so does a data iteration, whether it carries the shared buffer itself or a caller's |
| EncoderConservation.HeadersLoopAccounted | src/rp-filter-manager.c:1023-1100 | so does a header iteration in which filters add bodies |
| DecoderChain.HeadersLoop | src/rp-filter-manager.c:781-868 | the request's header iteration terminates and leaves earlier filters alone |
| DecoderChain.CommonContinue | src/rp-active-stream-filter-base.c:327-376 | so does a request-side resume |
| DecoderChain.DataLoop | src/rp-filter-manager.c:870-973 | so does the request's data iteration; what it shows and passes on is `RequestViewTheorems.RequestFiltersCompose` |
| DecoderProtocol.HeadersLoopLawful | src/rp-filter-manager.c:794-867 | request headers reach each filter once and in order, no filter after an abort, and the chain completes at most once |
| DecoderProtocol.DataLoopLawful | src/rp-filter-manager.c:882-972 | request data reaches only filters with headers and without the end, none after an abort, and leaves the response chain untouched |
| DecoderProtocol.DataEntryLawful | src/rp-active-stream-filter-base.c:387-423 | a decoder filter that lets data pass has passed its headers on, and one that is shown data once the request is all in is shown its end, as asserted there |
| DecoderProtocol.HeadersEntryLawful | src/rp-filter-manager.c:781-867 | headers reach a filter only while the chain is not complete, and the chain is to be completed exactly when the last filter saw the end and injected no body |
| DecoderProtocol.LastResumed | src/rp-filter-manager.c:947-972 | resuming the last filter after it saw the end completes nothing, so the chain is completed once |
| DecoderProtocol.MaybeEndDecodeSound | src/rp-filter-manager.c:743-758 | completing the request chain closes the stream at most once and keeps every filter's view |
| FilterManagerObject.FilterManager.constructor | src/rp-filter-manager.c:257-279 | a new manager satisfies the run invariant |
| FilterManagerObject.FilterManager.Perform | src/rp-filter-manager.c:1270-1388 | every call leaves the object in the state of the run functions and valid, and takes no end or abort back |
| FilterManagerObject.FilterManager.EncodeHeaders | src/rp-filter-manager.c:1023-1100 | the loop over the encoder filters computes `EncoderChain.HeadersLoop` |
| FilterManagerObject.FilterManager.EncodeData | src/rp-filter-manager.c:1143-1228 | the loop computes `EncoderChain.DataLoop`, of which `ViewTheorems.FiltersCompose` and `FilterTheorems.BytesAreConserved` hold |
| FilterManagerObject.FilterManager.ContinueEncoding | src/rp-active-stream-filter-base.c:327-376 | the resume computes `EncoderChain.CommonContinue` |
| FilterManagerObject.FilterManager.DecodeHeaders | src/rp-filter-manager.c:781-868 | the loop over the decoder filters computes `DecoderChain.HeadersLoop` |
| FilterManagerObject.FilterManager.DecodeData | src/rp-filter-manager.c:870-973 | the loop computes `DecoderChain.DataLoop`, of which `RequestViewTheorems.RequestFiltersCompose` holds, and nothing if decoding is aborted |
| FilterManagerObject.FilterManager.ContinueDecoding | src/rp-active-stream-filter-base.c:327-376 | the resume computes `DecoderChain.CommonContinue` |
| ConnectionManager.Manager.ResetAllStreams | src/rp-http-conn-manager-impl.c:62-76 | from any list, zombies included, and any counters, the loop ends with an empty list and exactly the listed streams torn down, in order and before any close, even if a teardown closes the connection from inside |
| ConnectionManager.Manager.DeferredStreamDestroy | src/rp-http-conn-manager-impl.c:431-490 | a stream that cannot go yet stays listed as a zombie; otherwise it is torn down, with all others if that crosses the reset limit and alone if not |
| ConnectionManager.Manager.MaybeDrainDueToPrematureResets | src/rp-http-conn-manager-impl.c:375-414 | an open connection is closed by this call, all remaining streams torn down first, if and only if at least half of the ended requests, and of a minimum of 500, were premature resets; otherwise nothing happens |
| ConnectionManager.Manager.OnResetStream | src/rp-http-conn-mgr-impl-active-stream.c:246-261 | a reset stream is torn down, alone, or with all others and the connection if and only if it is open and the resets are too many |
| ConnectionManager.Manager.DoConnectionClose | src/rp-http-conn-manager-impl.c:78-102 | all streams are torn down, and behind all of that the connection is closed as asked for |
| ConnectionManager.Manager.OnClose | src/rp-http-conn-manager-impl.c:119-155 | a close event tears down what is listed, and nothing twice |
| ConnectionManager.Manager.FilterManagerComplete | src/rp-filter-manager.c:548-558 | every filter of the stream is told of completion, in order |
| ConnectionManager.Manager.FilterManagerDestroy | src/rp-filter-manager.c:560-572 | every filter of the stream is destroyed, in order |
| ConnectionManager.TornAllOnce | src/rp-http-conn-manager-impl.c:431-490 | a teardown of distinct streams completes and destroys each of their filters once, deletes each stream once, and touches no other stream |
| ConnectionManager.TornAllOrdered | src/rp-http-conn-manager-impl.c:464-475 | no filter of a stream is told of completion once one of them was destroyed |
| ConnectionManager.Manager.NewStream | src/rp-http-conn-manager-impl.c:270-304 | a new stream joins the list and cannot be destroyed yet; a soft drain closes |
| ConnectionManager.Manager.EncodeHeaders | src/rp-http-conn-mgr-impl-active-stream.c:793-876 | for every version, drain and tunnel: all headers but Connection go out as they are, in order, and as many Connection headers as came in, or one if none did and one is to be sent; the exact block in each case; over all responses of a connection, an HTTP/1.x response that leaves it draining and opens no tunnel ends with Connection: close, and a drain that reached closing is never taken back |
| ConnectionManager.Manager.CheckForDeferredClose | src/rp-http-conn-manager-impl.c:104-117 | the connection closes at the first check that finds it closing with no streams and nothing to write, and at no other |
| ConnectionManager.Manager.EndStream | src/rp-http-conn-manager-impl.c:511-581 | an incomplete stream is reset, which drains HTTP/1.x; the stream goes if it was reset or can be destroyed and no other one does, unless too many resets abort the open connection; the call closes the connection with a flush if and only if the check is asked for, the connection is closing, no stream is left and nothing is to be written |
| HttpHeaders.ReplacedOnce | src/rp-downstream-filter-manager.c:243-250 | a replaced header occurs once if and only if it did not occur twice before |
| HttpHeaders.ReplacedOthers | src/rp-http-conn-mgr-impl-active-stream.c:846-856 | replacing the first header of a name leaves all others as they are, in order, and as many of the name as there were, or one |
| HttpHeaders.ReplacedTwice | src/rp-http-conn-mgr-impl-active-stream.c:807-856 | of a name that is replaced twice the first replacement goes if there was no second header of the name, and stays if there was |
| HttpHeaders.SecondStays | src/rp-downstream-filter-manager.c:243-250 | of two headers of a name the second stays |
| LocalReply.Prepare | src/rp-downstream-filter-manager.c:259-312 | the reply carries the length of the rewritten body, and as its only Content-Length if and only if the hooks left at most one, or two for an empty body; all headers that do not frame it stay as the hooks left them |
| LocalReply.UnframedReply | src/rp-downstream-filter-manager.c:259-312 | a reply that goes out with two lengths because its caller wrote two |
| LocalReply.FramingEndsOnce | src/rp-downstream-filter-manager.c:314-334 | a reply is one header block and one end of stream, on the headers for HEAD or an empty body and on a single data frame otherwise |
| LocalReply.Replier.EncodeLocalReply | src/rp-downstream-filter-manager.c:314-334 | the frames that go out are those of the framing, without the body if the stream is destroyed |
| LocalReply.Replier.SendLocalReply | src/rp-downstream-filter-manager.c:518-587 | over any sequence of replies after the request's headers, one header block goes out at most, with the body, its length, its type and all headers the hooks left that do not frame it; every later reply resets the stream instead |
| CodecClient.Client.OnClose | src/rp-codec-client.c:93-147 | the list ends up empty; each listed request is reset exactly once or completed by the last bytes of a remote HTTP/1 close; requests already gone are left alone |
| CodecClient.Client.ResetStream | src/rp-codec-helper.c:153-172 | on a stream whose reset was not started, the request's own callback runs first and then every other one that was registered, once each and in order, with others resetting further streams or closing the connection from inside; every reset that is started is carried through, one under way is left alone, and no stream loses or gains a callback; the loop terminates and the request is off the list |
| CodecClient.Client.ResetActive | src/rp-codec-client.c:136-141 | every listed request is reset and the list ends up empty; resets under way are left alone and those started are carried through |
| CodecClient.Client.CompleteRequest | src/rp-codec-client.c:384-390 | a completed request leaves the list and will see no reset; the other callbacks of its stream stay |
| CodecClient.Client.NewStream | src/rp-codec-client.c:341-362 | a new request heads the list, and its stream records its callbacks, none of them told |
| StreamCallbacks.MarkBalance | src/rp-codec-helper.c:109-151 | whoever is removed, whether the stream is reset and whatever marks are raised from inside, every callback that was there and still is has been told of every mark once; one that registered meanwhile is ahead by the runs that were under way, up less down; the balance is kept if and only if that is nought for all that are left |
| StreamCallbacks.MarksAfterResetIff | src/rp-codec-helper.c:109-151 | a run in which a callback resets the stream tells somebody of the mark after their reset if and only if a run raised from inside has, or a callback that was told of the reset is still registered behind the one that started it |
| StreamCallbacks.NoMarksOnceOver | src/rp-codec-helper.c:109-172 | from the end of a stream's own side or its reset on, that step included, over any sequence of operations and whatever callbacks do from inside: the count of highs stays, no callback hears of a mark, and one that registers hears the replay only |
| StreamCallbacks.OpenMarkIsHeard | src/rp-codec-helper.c:109-151 | before that, with callbacks that do not react, a mark counts by one and each registered callback hears of it once, in the order of the slots |
| StreamCallbacks.MarkFollowsReset | src/rp-codec-helper.c:132-151 | a run of two callbacks in which that happens |
| StreamCallbacks.LateRegistrationIsOff | src/rp-codec-helper.c:132-151 | a run in which a callback registers another, which ends one notice off |
| StreamCallbacks.ResetAllSettled | src/rp-codec-helper.c:153-172 | a reset runs once, every callback registered at its end saw it once, no balance changes and nobody is told of a mark after it |
| StreamCallbacks.Helper.RunWatermark | src/rp-codec-helper.c:109-151 | the loop computes `MarkAll`, resets and further runs from inside included, and terminates; once the stream has ended locally or its reset was started it changes nothing |
| StreamCallbacks.Helper.RunReset | src/rp-codec-helper.c:153-172 | the loop computes `ResetAll` and terminates |
| StreamCallbacks.Helper.AddCallbacks | src/rp-codec-helper.c:76-88 | the replay loop computes `Added`, and however late a callback registers, it is as many highs ahead as the stream |
| StreamCallbacks.Helper.RemoveCallbacks | src/rp-codec-helper.c:90-107 | removal clears one slot, moves none and keeps the balance |
| StreamCallbacks.DownstreamWatermarks.Call | src/rp-filter-manager.c:1657-1683 | each mark reaches every registered callback once and keeps the balance |
| StreamCallbacks.DownstreamWatermarks.Add | src/rp-active-stream-decoder-filter.c:134-146 | a late registration catches up with the marks in force |
| StreamCallbacks.DownstreamWatermarks.Remove | src/rp-active-stream-decoder-filter.c:148-155 | removal takes that callback only and keeps the balance |
| Decompressor.ChunkingIsInvisible | src/rp-decompressor-filter.c:124-198 | however a body is cut into chunks, the output and the final state are those of the whole |
| Decompressor.Filter.Decompress | src/rp-decompressor-filter.c:124-198 | the loop terminates, writes all the input gives, drains exactly what was consumed, and leaves neither output nor an error pending |
| Decompressor.Filter.DecompressData | src/rp-decompressor-filter.c:229-248 | output is held back until the stream ends and then passed on once, whole |
| Decompressor.Converter.Convert | src/gbrotlidecompressor.c:76-157 | an error met while bytes moved is reported by the next call, which moves none, and then forgotten |
| Decompressor.AdvancedFeeds | src/gbrotlidecompressor.c:113-119 | a call with limited room moves bytes from input to output without changing the whole effect |
| HostMaps.Registry.Add | src/rp-host-map.c:94-100 | keys stay addresses, each host's count stays live maps plus outside references, and no snapshot changes |
| HostMaps.Registry.AddTake | src/rp-host-map.c:80-92 | the same with the caller's reference taken over |
| HostMaps.Registry.Remove | src/rp-host-map.c:111-118 | removal by address releases the stored host's reference and changes no snapshot |
| HostMaps.Registry.Freeze | src/rp-host-map-snap.c:66-86 | a snapshot with one reference has the map's contents, and every map and older snapshot keeps its contents and its references |
| HostMaps.Registry.CloneFromSnapshot | src/rp-host-map.c:138-155 | a clone with one reference has the snapshot's contents, so freeze then clone is the identity, and nothing else changes |
| HostMaps.Registry.UnrefMap | src/rp-host-map.c:53-63 | the last reference releases each host of the map once |
| HostMaps.Registry.RefSnap | src/rp-host-map-snap.c:36-43 | one more reference, nothing else |
| HostMaps.Registry.UnrefSnap | src/rp-host-map-snap.c:45-56 | the last reference destroys the snapshot and its map and no other |
| HostMaps.Registry.Publish | src/rp-host-map-snap.h:36-47 | the previous snapshot loses one reference and is gone with its map if that was the last; every other snapshot and map stays as it is |
| HostMaps.Registry.SetRef | src/rp-host-map-snap.h:27-34 | the same with a reference of the slot's own |
| LogFormat.CompiledIff | src/logger.c:500-592 | a list is compiled from a format if and only if it is in normal form, without adjacent literals, and the format spells it: tags in any letter case, literals and quoted header names exactly |
| LogFormat.OutcomeIff | src/logger.c:500-592 | the compiler gives up at an unknown tag, a missing name or an open quote if and only if the format has one behind the spelling of a normal list |
| LogFormat.BadFormats | src/logger.c:500-560 | a format with an unknown tag, and one that makes the compiler read past its end |
| LogFormat.PrintThenCompile | src/logger.c:500-592 | every list in normal form compiles back to itself |
| LogFormat.OnlyOneStarts | src/logger.c:31-51 | tags are prefix-free in any letter case |
| LogFormat.TagAtIff | src/logger.c:361-386 | the lookup finds a tag if and only if it stands there |
| LogFormat.ArgTypeFromString | src/logger.c:361-386 | the table search computes the lookup |
| LogFormat.Compile | src/logger.c:500-592 | the pass over the format computes the parse, with each way it can fail |
| LogFormat.CharBuffer.AddChar | src/logger.c:415-456 | every access is in bounds, the text is terminated and is exactly the characters appended |
| PoolKey.DecodeEncoded | src/rp-conn-pool.h:162-190 | the encoding has a left inverse for fields of up to 2^32 - 1 bytes |
| PoolKey.EqualKeysIff | src/rp-conn-pool.h:162-190 | two keys are equal if and only if seeds modulo 256, protocols, names (absent as empty) and digests are |
| PoolKey.OverlongCollide | src/rp-conn-pool.h:137-144 | beyond that length keys collide |
| PoolKey.NewKey | src/rp-conn-pool.h:162-190 | appending field by field computes the encoding |
| Authority.ParseWithPort | src/rp-http-utility.c:133-161 | host:port gives back host and port for every port below 65536, colons in the host included |
| Authority.ParseBracketed | src/rp-http-utility.c:133-161 | a bracketed address is recovered without brackets, with or without a port |
| Authority.ParseWithoutPort | src/rp-http-utility.c:133-161 | an authority without a colon, or ending in a bracket, is all host and has port 0 |
| Authority.ParseAuthority | src/rp-http-utility.c:133-161 | the narrowing of the views stays in bounds and computes the parse |
| Authority.SameClusterIff | src/rp-dynamic-forward-proxy.c:87-113 | two authorities have the same cluster name if and only if they parse to the same host and effective port |
| Authority.ClusterOf | src/rp-dynamic-forward-proxy.c:87-113 | a port other than 0 names the cluster, and the default port does without one or for port 0 |

## Left out

- Trailers, metadata and 1xx responses in the filter chain, which the source leaves unfinished.
- Filters that resume themselves, inject data or send a response from inside their own callback: calls of a run do not overlap.
- ViewTheorems.FiltersCompose: filters that add to the body or abort, and added data from outside a callback, which `FilterTheorems.BytesAreConserved` covers at the codec.
- RequestViewTheorems.RequestFiltersCompose: decoder filters that add to the body or abort, and data added to the request from outside a callback.
- CodecClient.Client.ResetStream: the request's own callback is the first slot, as it is registered on creation; other callbacks are not added or removed during a reset.
- StreamCallbacks.MarkBalance: a callback does not react to the marks replayed when it registers, and no mark is lowered that is not in force.
- StreamCallbacks.Helper.EndLocally: the source tests the flag for the local end but sets it nowhere; the model sets it at any time.
- RequestTheorems.RequestEndIsLostIffWedged: what follows a wedge is stated for the response only.
- StreamCallbacks.DownstreamWatermarks.Call: calls back into the list from inside a run are not modelled.
- LocalReply.Replier.SendLocalReply: replies before the request's headers, which go through the filter chain.
- ConnectionManager.Manager.EncodeHeaders: takes the header block after the configured mutations, and the tunnel decision as an input.
- Decompressor.Converter.Convert: the decoder library is an abstract byte-wise decoder that consumes all it can.
- Allocation failure, timers, statistics, logging output, TLS and sockets.

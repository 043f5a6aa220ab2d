# Verification of av-denoise's streams, caches and layouts

This project models the parts of av-denoise that have to be right about state over time, in Dafny, and
proves properties of the models.

**The pass scheduler.** An NL4D engine keeps a ring of `2r + 1` frames and a noise look-ahead `D`
deep. Passes scatter into every region of an accumulator ring, and a region is read out once no later
pass can reach its frame. `Schedule` says in closed form, from two numbers alone, which passes filter
which frame of which stream. `Protocol` says what each call answers, and proves what any sequence of
calls writes out. `Front`, `Denoiser` and `Engine` are the machinery as it updates its fields: ring,
look-ahead, clears and the zeroed-region shortcut, head, middle and tail passes, the queue and the lazy
tail. Their methods are proved to answer exactly as the protocol says, and every region read out to hold
exactly the contributions the closed form names, whatever stale data the ring held. An accumulator
region is the sequence of contributions scattered into it since its last clear, each naming the stream
run, the pass centre, the images the pass read from the ring and the frame the region stood for. What a
pass reads is its whole ring, so `Schedule` also says how far the ring has come when each pass runs.
`Runs` drives an engine through any calls, and `Archives` keeps the record of what it wrote out.

**The planar engine.** `Planar` runs a luma and a chroma engine side by side, with the ring of uncleaned
planes and the motion ring of `LumaMotion`. The passes stay level or the engine refuses, chroma always
finds the motion luma searched for the same frame, and every frame written out carries the uncleaned
planes of that frame. `PlanarRuns` builds an engine from new passes and drives it through any calls.

**The random-access planner.** `Planner`, `Buffer` and `Requests` plan out-of-order requests over one
stream; `Host` is the denoiser that stream runs on, and `HostEngine` compares what it says of an output with what
the pass engine behind it writes out; `Rendering` compares what it hands over with a
render of the whole clip in frame order; `Filter` puts them together. An output is named by the source
frame it denoises and, pass by pass, the source frame in the middle and every source frame the pass read.
By that name every request gets the output of a sequential render, in any interleaving of requests, and
requests that stay within the lookback are one sequential render.

**The kernel cache and its warm-up queue.** `KernelCache` and `WarmUp` are state machines over any
number of processes, each step being what one process does between two points where another may come
in. `ActiveCache` and the class in `WarmUp` are one process's calls, proved to take exactly those steps.
`WarmCache` runs both machines together, and says exactly when a process that waited has the kernels.

**Two layouts.** `Packing` and `Threads` are the word-packing kernels as loops of one thread, and
`Launches` is any interleaving of the stores of many; `Pyramid` is the padded luma pyramid.

A call that may fail on the GPU, a lock or a file takes a flag: with `healthy` it does not fail, and
without it it may or may not. `Wrappers` holds the option type, `Numbers` shared arithmetic and `Rings`
the modular arithmetic of cyclic slots.

## Where the code and its comments differ

- `av-denoise-core/src/collab/kernels/aggregate.rs:30-34` sizes the accumulator for up to `4r + 1`
  passes per region. The most that can happen is `4r` (`Schedule.AccumulationBound`), so the code
  errs on the safe side.
- `av-denoise-core/src/kernel_cache.rs:271-286` notes the private file's write state after a refill.
  A kernel compiled since the last merge is then never offered unless another is compiled later
  (`KernelCache.RefillHidesKernels`); `KernelCache.MergeSharesAll` says exactly when a merge is complete.
- `av-denoise-core/src/kernel_cache.rs:139-142` promises that a refill copies what others merged since
  the process last read the shared file. The file's time is also noted after the process's own merge
  (line 254), so what others merged before that is skipped (`KernelCache.MergeHidesOthers`);
  `KernelCache.RefillBringsAll` says exactly when a refill is complete.
- `av-denoise/src/warmup.rs:10-16` promises that a process that waited loads every kernel. It does not
  when the merge before the stamp fails (`WarmCache.FailedMergeStamps`), when the holder refilled between
  its compile and that merge (`RefillEmptiesFinish`), or when its own merge was the last change to the
  shared file (`OwnMergeHidesStamp`). `WarmCache.WaiterHasKernels` says over all runs exactly when it
  does, and `WarmCache.PromiseIsKept` what that takes before a finish that nothing interrupts.

## Model

| member | source | states |
|---|---|---|
| Schedule.ExpectedIsStable | av-denoise-core/src/nl4d/denoiser.rs:357-378 | the passes a frame has collected once it is completed, and how far the ring had come at the last of them, are what the finished stream says, however many more frames follow |
| Schedule.SteadyFrame | av-denoise-core/src/nl4d/denoiser.rs:344-378 | a frame outside both edge rings of a scene collects exactly the passes centred `frame - r ..= frame + r`, the last of them once the ring has taken `frame + 2r + 1` frames |
| Schedule.SceneMissesNothing | av-denoise-core/src/nl4d/denoiser.rs:344-378 | in a scene of any length, every pass whose window holds a frame is among those that filtered it |
| Schedule.ContextFrameIsWhole | av-denoise-core/src/nl4d/denoiser.rs:339-343 | a frame of a context-led stream gets its whole window if and only if it is at or after the frame before the first pass, or the stream never fills its ring (or the radius is 0) |
| Schedule.AccumulationBound | av-denoise-core/src/collab/kernels/aggregate.rs:30-34 | between its clear and its read-out a region collects at most `4r` passes in any stream, and at most `2r + 1` away from both edge rings |
| Schedule.AccumulationBoundIsTight | av-denoise-core/src/collab/kernels/aggregate.rs:30-34 | a scene of `4r` frames meets the bound of `4r` |
| Schedule.RebuildMatchesSequential | av-denoise/src/planar/reseed.rs:18-45 | behind `2r + D` context frames, the target and every later frame are filtered by exactly the passes a run from the clip's start gives them, and each of those passes reads the very same frames in the same ring positions |
| Schedule.PassOfOutput | av-denoise-core/src/nl4d/denoiser.rs:339-378 | an output alone says how far the ring had come when each of its passes ran, the last included |
| Schedule.WindowIsStable | av-denoise-core/src/nl4d/denoiser.rs:357-378 | the frames a pass reads do not change as the stream goes on, once its look-ahead is complete |
| Protocol.CallsKeepLegal | av-denoise-core/src/nl4d/engine.rs:148-196 | each answered call leaves a legal stream; a push readies at most one frame, context readies none, an end owes at most `2r + D` |
| Protocol.EveryRunIsFaithful | av-denoise-core/src/nl4d/engine.rs:249-340 | after any sequence of calls, every stream that ended wrote out a contiguous run of frames ending at the last pushed, each once, in order, from the passes the closed form names; the current stream has written the leading part |
| Protocol.SceneWritesEveryFrame | av-denoise-core/src/nl4d/engine.rs:249-335 | a scene of `N` pushes writes exactly the frames `0..N-1`, for every `N` |
| Protocol.WrittenIsStable | av-denoise-core/src/nl4d/engine.rs:249-268 | another push or context frame changes nothing already written out |
| Protocol.NextFrameIsRecent | av-denoise-core/src/engine/planar.rs:486-494 | the frame the next emit writes is among the newest `2r + D + 1` pushed |
| Protocol.ContextComesFirst | av-denoise-core/src/nl4d/engine.rs:270-286 | after any calls, a stream that still takes frames takes one as context if and only if none was pushed to it, and a push is the reason given if not |
| Protocol.WritesBeforeTaking | av-denoise-core/src/nl4d/engine.rs:148-163 | after any calls, pushes and ends are refused if and only if there is a frame to write out, with the error the source names, and emits if and only if there is none |
| LumaMotion.SharesOneMore | av-denoise-core/src/motion/luma_ring.rs:10-17 | within one turn of the ring, sharing the next frame keeps every earlier one |
| LumaMotion.SharedIsFound | av-denoise-core/src/motion/luma_ring.rs:10-17 | what luma shared is found by chroma, and chroma's record of motion then equals luma's |
| Front.NlmFront.LogicalFrame | av-denoise-core/src/nlmeans/edges.rs:10-17 | in a full ring, logical position `l` holds stream frame `real_pushes - (2r + 1) + l` |
| Front.NlmFront.PaddedFrame | av-denoise-core/src/nlmeans/edges.rs:14-17 | in a ring padded at the end of a short stream, position `l` holds frame `l`, and padding keeps the number of the frame it copies |
| Front.NlmFront.ImagesAreNewest | av-denoise-core/src/nlmeans/dispatch/motion.rs:83-97 | what a pass of a full ring reads through its view is exactly the images of the newest `2r + 1` frames, oldest first |
| Front.NlmFront.ImagesArePadded | av-denoise-core/src/nlmeans/dispatch/motion.rs:83-97 | what a pass of a padded ring reads is the whole stream in order, with its last frame repeated |
| Front.NlmFront.TakeIntoRing | av-denoise-core/src/nlmeans/denoiser/mod.rs:495-510 | a frame goes into the slot of its stream number |
| Front.NlmFront.ReleaseHeldFrame | av-denoise-core/src/nlmeans/denoiser/lookahead.rs:225-257 | the oldest held frame, and no other, moves into the ring slot of its number |
| Front.NlmFront.PushIntoLookahead | av-denoise-core/src/nlmeans/denoiser/lookahead.rs:182-220 | a push releases one frame exactly when the look-ahead is full, then holds the new frame |
| Front.NlmFront.PushPlanes | av-denoise-core/src/nlmeans/denoiser/mod.rs:484-511 | with or without a look-ahead, a push keeps every frame of the stream in its place and shares or reads the pair it owes |
| Front.NlmFront.FillRingWithLastFrame | av-denoise-core/src/nlmeans/edges.rs:41-48 | a short stream's ring is filled with copies of its last frame and every real frame stays |
| Front.NlmFront.SubmitMachinery | av-denoise-core/src/nlmeans/denoiser/machinery.rs:45-101 | a pass at a logical position runs along the motion of that position's stream frame: its own search, which a writer shares, or the one it reads, failing only if that is not there |
| Denoiser.PassCollects | av-denoise-core/src/nl4d/collab_pass.rs:77-94 | one pass, with the clear the scheduler picks, carries what every ring frame has collected exactly one centre further, each contribution naming the images the pass was to read |
| Denoiser.ContributionsStay | av-denoise-core/src/nl4d/denoiser.rs:357-378 | another frame changes nothing, images included, that passes with their whole look-ahead contribute |
| Denoiser.Nl4dDenoiser.RunPass | av-denoise-core/src/nl4d/collab_pass.rs:50-130 | a pass that skips regions marked zeroed leaves exactly what one that clears all it promises leaves, and marks none zeroed |
| Denoiser.Nl4dDenoiser.CollectingPass | av-denoise-core/src/nl4d/denoiser.rs:364-366 | a pass of a full ring leaves every frame with one more contribution, of its own run and centre and of exactly the images the schedule says it reads |
| Denoiser.Nl4dDenoiser.HeadPasses | av-denoise-core/src/nl4d/denoiser.rs:357-364 | the head passes of a scene leave every ring frame with exactly the centres `0..r-1` |
| Denoiser.Nl4dDenoiser.SubmitPasses | av-denoise-core/src/nl4d/denoiser.rs:344-380 | a submit runs exactly the passes owed, and returns the region of the ring's oldest frame, with that of the frame after it, exactly when more than `radius` passes of the stream have run, which is when the closed form says it is complete |
| Denoiser.ReadyAfterRadiusPasses | av-denoise-core/src/nl4d/denoiser.rs:339-370 | a region is ready if and only if the stream has run more than `radius` passes by then, whether or not it opens a scene |
| Denoiser.Nl4dDenoiser.TakeFrame | av-denoise-core/src/nl4d/engine.rs:249-268 | a push leaves the ring with what its frames owe and returns the region it completes |
| Denoiser.Nl4dDenoiser.DrainLookahead | av-denoise-core/src/nl4d/denoiser.rs:459-470 | draining stops at the first release that completes a region or at an empty look-ahead, having run exactly the passes of the frames it released |
| Denoiser.Nl4dDenoiser.DrainedRegionCount | av-denoise-core/src/nl4d/denoiser.rs:487-511 | the loop over pass counts counts the submits by which more than `radius` passes have run, and that is the number of regions later drains complete |
| Denoiser.CompletedAreReady | av-denoise-core/src/nl4d/denoiser.rs:487-511 | the closed form's count of completed regions is, between any two ring counts, that of the submits by which more than `radius` passes have run |
| Denoiser.Nl4dDenoiser.FinishCount | av-denoise-core/src/nl4d/denoiser.rs:474-482 | the predicted count is the number of frames the stream still has to write out |
| Denoiser.Nl4dDenoiser.LongTail | av-denoise-core/src/nl4d/denoiser.rs:544-554 | the tail passes of a full ring leave every unread region with exactly the centres that reach it to the stream's end |
| Denoiser.Nl4dDenoiser.ShortTail | av-denoise-core/src/nl4d/denoiser.rs:534-554 | a stream shorter than the ring runs every real frame as a centre, on a cleared ring |
| Denoiser.Nl4dDenoiser.FinishPasses | av-denoise-core/src/nl4d/denoiser.rs:518-565 | the regions returned are those of the last `min(pushes, 2r)` frames in order, each holding exactly what the closed form names |
| Denoiser.Nl4dDenoiser.CollectRegions | av-denoise-core/src/nl4d/denoiser.rs:556-563 | regions are listed in frame order, each in the slot that names its frame and with the slot that names the frame after it, unless it is the last |
| Denoiser.Nl4dDenoiser.ReadRegion | av-denoise-core/src/nl4d/denoiser.rs:383-390 | a read returns exactly what the stream owes the frame, each pass with the images it is to have read, whatever the region held before the stream; the region is left empty and marked zeroed |
| Engine.SpansFit | av-denoise-core/src/motion/luma_ring.rs:10-14 | no emit runs more than `2r + 1` passes |
| Engine.QueueStands | av-denoise-core/src/nl4d/engine.rs:181-196 | what a stream that has ended still owes agrees with what its next drain or tail passes queue |
| Engine.Nl4d.Push | av-denoise-core/src/nl4d/engine.rs:249-268 | answers exactly as `Protocol.Push`; a refusal changes nothing; a failure poisons |
| Engine.Nl4d.PushContext | av-denoise-core/src/nl4d/engine.rs:270-286 | answers exactly as `Protocol.PushContext`, in the source's order of checks |
| Engine.Nl4d.QueueTailRegions | av-denoise-core/src/nl4d/engine.rs:181-196 | a queue that is empty with frames owed is filled by draining first and the tail passes last; the check on owed regions cannot fail |
| Engine.Nl4d.ReadOut | av-denoise-core/src/nl4d/engine.rs:288-319 | the region read out is that of the stream's next frame and holds exactly the passes the closed form names |
| Engine.Nl4d.EmitInto | av-denoise-core/src/nl4d/engine.rs:288-319 | answers exactly as `Protocol.Emit`: the frame written is the next one, and its contents are exactly the passes of this stream that the closed form names, each over exactly the images the ring is to hold when it runs |
| Engine.Nl4d.Finish | av-denoise-core/src/nl4d/engine.rs:321-335 | answers exactly as `Protocol.Finish`: the count promised is the count later written out |
| Engine.Nl4d.Reset | av-denoise-core/src/nl4d/engine.rs:337-342 | whatever a failure left behind, the engine takes a fresh stream afterwards |
| Runs.DoEmit | av-denoise-core/src/nl4d/engine.rs:288-319 | an emit of a run writes what the protocol says, holding exactly what its own stream owes |
| Runs.RunCalls | av-denoise-core/src/nl4d/engine.rs:249-342 | any sequence of calls, whichever of them fail, takes the engine through exactly the run the protocol describes for the calls taken, which are all of them if none fails; everything any of its streams wrote out is recorded, and is exactly what that stream owes by its own frames and number |
| Planar.PassthroughRing.Store | av-denoise-core/src/engine/passthrough.rs:43-49 | a store makes the ring hold the newest frames of the stream, the new one included |
| Planar.PassthroughRing.Load | av-denoise-core/src/engine/passthrough.rs:52-58 | a load of any of the newest `slots` frames gives that frame's planes |
| Planar.PlanarEngine.ForwardPush | av-denoise-core/src/engine/planar.rs:327-375 | both passes answer alike, or the engine refuses until a reset; chroma finds every motion field it reads |
| Planar.PlanarEngine.Push | av-denoise-core/src/engine/planar.rs:417-430 | after a push both passes stand level and every plane of the frame is on record, the group no pass cleans in the ring; after a failure every later call is refused |
| Planar.PlanarEngine.PushFrom | av-denoise-core/src/engine/planar.rs:432-460 | a push from a source has the effect of a push, and a failed upload, or chroma planes of the wrong size that a pass or the ring asks for, poisons the engine |
| Planar.PlanarEngine.PushContext | av-denoise-core/src/engine/planar.rs:462-475 | after a context frame both passes stand level |
| Planar.PlanarEngine.StoreUncleaned | av-denoise-core/src/engine/planar.rs:288-301 | the planes put into the ring are those of the group no pass cleans: chroma when there is no chroma pass, luma when there is one |
| Planar.PlanarEngine.ForwardEmit | av-denoise-core/src/engine/planar.rs:327-375 | luma and chroma write the same stream frame, even when luma has already restarted its stream |
| Planar.PlanarEngine.TakePassed | av-denoise-core/src/engine/planar.rs:482-498 | the planes that no pass cleans, of the frame just written, are still in the ring, the last tail emit included |
| Planar.PlanarEngine.EmitInto | av-denoise-core/src/engine/planar.rs:477-501 | the frame written out holds what each pass cleaned and, of the planes pushed for that same stream frame, chroma if there is no chroma pass and luma if there is |
| Planar.PlanarEngine.Finish | av-denoise-core/src/engine/planar.rs:503-508 | both passes owe the same count |
| Planar.PlanarEngine.Reset | av-denoise-core/src/engine/planar.rs:510-530 | after a reset the engine is level and usable again, in a stream of a new number |
| PlanarRuns.FrameOwedStays | av-denoise-core/src/engine/planar.rs:477-501 | what a planar stream owes for an output whose window was complete, luma, chroma and uncleaned planes, stays as frames follow |
| PlanarRuns.FedStaysSorted | av-denoise-core/src/engine/planar.rs:377-387 | each pass is given its own planes of every frame pushed, at every point of a run |
| PlanarRuns.DoEmit | av-denoise-core/src/engine/planar.rs:477-501 | an emit of a run writes what luma and chroma owe for one stream frame, each by its own frames, and of that frame the planes that have no pass |
| PlanarRuns.RunCalls | av-denoise-core/src/engine/planar.rs:417-530 | any sequence of calls, failing ones and unfit planes included, is a run of the protocol; everything written out by any of its streams is what that stream owes, and the passes stay level along the same motion |
| PlanarRuns.Assemble | av-denoise-core/src/engine/planar.rs:138-173 | an engine built from new passes, whatever their buffers hold, is level and usable, and passes a plane group through exactly when one of a colour frame is not cleaned |
| PlanarRuns.BuildAndRun | av-denoise-core/src/engine/planar.rs:138-530 | the run theorem from a newly built engine |
| Planner.LowestIn | av-denoise-vs/src/stream.rs:250-253 | the lowest outstanding request in a range, or none if there is none |
| Planner.StreamGeometry.ReseedStart | av-denoise-vs/src/stream.rs:147-149 | a rebuild starts at the lowest outstanding request within `lookback` before the output, at the output itself if there is none, and at 0 when 0 is within the lookback |
| Planner.StreamGeometry.PlanFor | av-denoise-vs/src/stream.rs:129-159 | a plan serves exactly when the output is buffered, and advances only a live stream, from its next step |
| Planner.StreamGeometry.RebuildsAtLowest | av-denoise-vs/src/stream.rs:147-149 | a plan that rebuilds starts at 0 if that is within the lookback, and otherwise at the lowest output within it with a request outstanding, or at the one asked for |
| Planner.StreamGeometry.AdvancesInReach | av-denoise-vs/src/stream.rs:129-142 | a stream is run on if and only if it is live, not past the output, and its next source is within the request's reach or it has none left |
| Planner.StreamGeometry.PlanRunsLead | av-denoise-vs/src/stream.rs:79-92 | a plan's steps are exactly those up to `lead` outputs past the one asked for that the clip has, that follow no flush, and that follow no rebuild that took in the clip's end |
| Planner.StreamGeometry.CapacityIsRequest | av-denoise-vs/src/stream.rs:74-77 | the buffer may keep as many outputs as a request away from the clip's ends asks for sources |
| Buffer.KeepsHighest | av-denoise-vs/src/stream.rs:288-292 | eviction leaves at most the capacity, drops no more than it must, and drops only frames below every one it keeps |
| Buffer.OutputBuffer.EvictTo | av-denoise-vs/src/stream.rs:288-292 | what is left is the highest indices, unchanged |
| Requests.EveryRequestIsServed | av-denoise-vs/src/stream.rs:129-159 | whichever plan is picked, it produces the output asked for and leaves the stream where the next plan can start |
| Requests.EachInTurn | av-denoise-vs/src/stream.rs:234-248 | in any interleaving of requests nothing is given that was not asked for, nor closed that was not given |
| Requests.InterleavedIsInTurn | av-denoise-vs/src/stream.rs:234-248 | an order of events of the clip's outputs is an interleaving of requests if and only if at no point more of an output's requests were given than made, or closed than given |
| Requests.FlushComesLast | av-denoise-vs/src/stream.rs:82-92 | no step of a plan follows a flush |
| Requests.PlanStaysInRequest | av-denoise-vs/src/stream.rs:49-53 | every source a plan's steps or rebuild push lies in the range the request asked for |
| Requests.KeptFits | av-denoise-vs/src/stream.rs:75-77 | under bounded reordering nothing unserved is evicted |
| Requests.BoundedOrderIsSequential | av-denoise-vs/src/lib.rs:247-249 | for every run in which each frame is asked for once and never more than the lookback ahead of one unserved: one rebuild, at 0; every step once, in order; nothing produced is lost before it is served |
| Requests.WholeClipIsOneRender | av-denoise-vs/src/lib.rs:247-249 | a whole clip requested in any such order takes exactly the steps a render in frame order takes, and leaves nothing over |
| Host.PushThenEmit | av-denoise/src/host/mod.rs:271-296 | a push readies a frame exactly when it completes one, and emitting it leaves nothing waiting |
| Host.CompletedIsFinal | av-denoise/src/planar/reseed.rs:47-60 | the output of a completed frame, with every source frame its passes read, does not depend on what is pushed after it |
| Host.ReceivedThenTail | av-denoise/src/host/mod.rs:354-372 | what the pushes of a stream hand over, followed by what its end owes, is everything it writes out, in order |
| Host.TargetOnwards | av-denoise/src/planar/reseed.rs:160-177 | the last outputs of a window that ends the clip are the target's and every later frame's |
| Host.WindowReachesTarget | av-denoise/src/planar/reseed.rs:134-166 | a rebuild window is long enough: its target is written out, by the last push unless the window ends the clip |
| Host.MatchesIsCutFromClip | av-denoise/src/planar/reseed.rs:107-138 | a window is taken if and only if it is what some clip has of the frames around one of its own, cut short at that clip's ends and flagged so |
| Host.HostDenoiser.Push | av-denoise/src/host/mod.rs:256-296 | a push is refused exactly when poisoned or when two frames are in flight, and otherwise adds exactly the output its frame completes (`HostEngine.RenderIsOwed` says what that is of); the output-set check cannot fail |
| Host.HostDenoiser.PushPriming | av-denoise/src/host/mod.rs:302-319 | context is taken only before the first real push, and a refusal then changes nothing |
| Host.HostDenoiser.Flush | av-denoise/src/host/mod.rs:345-372 | everything in flight and then every frame the stream still owes, in order, and a fresh stream afterwards |
| Host.HostDenoiser.RunReseedWindow | av-denoise/src/planar/reseed.rs:101-178 | a window that does not match its flags is refused with nothing changed; otherwise the target's output, and every later one at the clip's end, and the stream stands where the pushes left it |
| Host.HostDenoiser.Reseed | av-denoise/src/planar/reseed.rs:47-92 | a window of exactly the span gives its target's output, and the stream stands where streaming would have left it |
| HostEngine.PassesAreContributions | av-denoise-core/src/nl4d/collab_pass.rs:77-94 | the passes the host names for an output are, in order, the contributions the engine's accumulator has for it, with the same frames read |
| HostEngine.RenderIsOwed | av-denoise-core/src/nlmeans/dispatch/motion.rs:83-97 | for every stream and every frame it writes out: what the host hands over is of that frame's source, and names exactly the passes that the engine writes out for it, each centred on the engine's centre and reading what the engine's ring held |
| Rendering.SamePasses | av-denoise/src/planar/reseed.rs:93-100 | the passes of a stream that began mid-clip are, renumbered, those of a stream run from the clip's start, and read the same frames |
| Rendering.SameOutput | av-denoise/src/planar/reseed.rs:93-100 | such a stream's outputs are those of a sequential render: the same passes, each over the same source frames |
| Rendering.PushFollows | av-denoise-vs/src/stream.rs:56-66 | the push of a step's source hands over exactly that step's output of a sequential render, in both edge modes |
| Rendering.FlushFollows | av-denoise-vs/src/filter.rs:458-475 | the final flush hands over every output left, each as a sequential render makes it |
| Rendering.ReseedEndsAtClipEnd | av-denoise-vs/src/filter.rs:328-337 | a rebuild's window ends the clip exactly when the planner takes the stream to end there |
| Rendering.ScatteringRebuild | av-denoise-vs/src/filter.rs:309-347 | a rebuild hands over exactly the outputs a sequential render makes, and its stream can carry on from there |
| Rendering.WindowedReseed | av-denoise-vs/src/filter.rs:318-325 | a clamped window gives the sequential output of its target |
| Filter.Denoise.Fetch | av-denoise-vs/src/filter.rs:520-538 | a source is only fetched if the request asked for it (its precondition, met by every caller) |
| Filter.Denoise.ReceiveOne | av-denoise-vs/src/filter.rs:428-437 | the output received is the one the planner says it is |
| Filter.Denoise.ReceiveAll | av-denoise-vs/src/filter.rs:442-448 | every output in flight is buffered under its own index, and nothing is left in flight |
| Filter.Denoise.PushWithDrain | av-denoise-vs/src/filter.rs:416-425 | a full queue always has an output to receive, and one receive makes room |
| Filter.Denoise.FlushIntoBuffer | av-denoise-vs/src/filter.rs:458-475 | a flush yields exactly the outputs the planner is still owed |
| Filter.Denoise.RunSteps | av-denoise-vs/src/filter.rs:350-369 | steps run in order from the planner's next step; the stream stays in step with the planner |
| Filter.Denoise.ReseedAt | av-denoise-vs/src/filter.rs:309-347 | a rebuild buffers exactly the outputs it produced and leaves planner and stream in step |
| Filter.Denoise.TakeOutput | av-denoise-vs/src/filter.rs:255-261 | the output is given out and the buffer is left within its capacity |
| Filter.Denoise.GetFrameInitial | av-denoise-vs/src/filter.rs:525-538 | a request asks for exactly the sources of the clip from `behind + lookback` before its output to `ahead + lead` after it |
| Filter.Denoise.Render | av-denoise-vs/src/filter.rs:212-264 | any request whose calls succeed gets exactly the output a sequential render makes of it, pass by pass and source frame by source frame (which are the engine's own, by `HostEngine.RenderIsOwed`), and leaves what `Requests.Answer` says; a failure leaves the planner's stream dead |
| Filter.Denoise.GiveNext | av-denoise-vs/src/filter.rs:212-264 | a request is served the sequential output whatever others are outstanding, and is planned by exactly those, or fails and leaves the filter usable |
| Filter.Denoise.RunEvents | av-denoise-vs/src/filter.rs:520-556 | any number of requests asked for, given and closed in any interleaving, of which any may fail: every frame given is the sequential one, each attempt was planned with exactly what was outstanding then, and if none fails and they keep within the lookback the stream is rebuilt once, at 0, and takes every step once and in order |
| KernelCache.StartIsFull | av-denoise-core/src/kernel_cache.rs:378-413 | a process that starts from the shared file has all of it, marked imported, nothing to offer, and nothing to refill until the file changes |
| KernelCache.ColdStartIsRefilled | av-denoise-core/src/kernel_cache.rs:97-127 | a process that starts cold holds nothing and takes nothing for read: a refill that meets no failure brings in all of the shared file as it is, marked imported |
| KernelCache.StartThenCompile | av-denoise-core/src/kernel_cache.rs:109-127 | however it started, a process has nothing to merge, and the first kernel it compiles is merged |
| KernelCache.StepGrows | av-denoise-core/src/kernel_cache.rs:462-494 | no step of any process takes away or changes a shared entry |
| KernelCache.SharedOnlyGrows | av-denoise-core/src/kernel_cache.rs:462-494 | over any continuation of any run, shared entries only grow and keep their values |
| KernelCache.StepKeepsSafe | av-denoise-core/src/kernel_cache.rs:232-286 | each step of any process keeps the invariant below |
| KernelCache.EveryRunIsSafe | av-denoise-core/src/kernel_cache.rs:232-286 | over all interleavings of start, compile, merge, refill and exit or crash: every shared entry was compiled by some process, what counts as merged is shared, and imported entries are never offered |
| KernelCache.EveryRunSeesThePast | av-denoise-core/src/kernel_cache.rs:232-286 | over all interleavings, the shared file a process last read or wrote is never later than the one there is |
| KernelCache.StepKeepsCaught | av-denoise-core/src/kernel_cache.rs:232-286 | a process keeps track of what it still has to merge through every step, except if and only if a refill takes note of its file while compiled entries wait |
| KernelCache.MergesOverlookNothing | av-denoise-core/src/kernel_cache.rs:232-267 | in every run without such a refill no process overlooks a kernel it compiled, even when compiles cut into its merges |
| KernelCache.MergeSharesAll | av-denoise-core/src/kernel_cache.rs:232-267 | a merge that meets no failure shares everything compiled if and only if a write was seen since the last note or nothing was left to share |
| KernelCache.FailedMergeIsRetried | av-denoise-core/src/kernel_cache.rs:248-261 | a merge that fails keeps its bookkeeping, so the next offers the same; it counts the shared file as read if and only if it got as far as writing to it |
| KernelCache.RefillBringsAll | av-denoise-core/src/kernel_cache.rs:271-286 | a refill that meets no failure brings in everything shared if and only if the shared file is not the one last read or written, or nothing is missing |
| KernelCache.RefillIsNotRepeated | av-denoise-core/src/kernel_cache.rs:271-286 | a refill that cannot be had changes nothing, and one that can is not made again until the shared file changes, even if some of its entries failed |
| KernelCache.MergeIsNotRepeated | av-denoise-core/src/kernel_cache.rs:232-268 | a merge that meets no failure leaves nothing to offer of what the process had seen written, and is not made again until the process writes |
| KernelCache.ExitThenStart | av-denoise-core/src/kernel_cache.rs:288-293 | a process that exits is gone with its private file, and a new start takes what the shared file has |
| KernelCache.RefillHidesKernels | av-denoise-core/src/kernel_cache.rs:285 | any refill that copies while compiled kernels wait makes the next merge do nothing |
| KernelCache.MergeHidesOthers | av-denoise-core/src/kernel_cache.rs:252-254 | any merge of its own keeps a process's next refill from seeing what others merged before it |
| KernelCache.KernelsCanBeHidden | av-denoise-core/src/kernel_cache.rs:271-286 | a concrete run of two processes that brings about the situations of the two lemmas above |
| ActiveCache.ActiveCache.constructor | av-denoise-core/src/kernel_cache.rs:97-127 | a process starts with the shared entries as they are, all marked imported, or cold if they cannot be had, with nothing to offer; a cold one takes nothing for read, so that a refill brings in everything (`KernelCache.ColdStartIsRefilled`) |
| ActiveCache.SharedFile.InsertMany | av-denoise-core/src/kernel_cache.rs:474-494 | missing entries are added one by one, none overwritten, and the count of failures is zero exactly when all landed |
| ActiveCache.ActiveCache.MergeKernels | av-denoise-core/src/kernel_cache.rs:232-268 | a merge takes exactly the steps observe, scan, land |
| ActiveCache.ActiveCache.RefillIfChanged | av-denoise-core/src/kernel_cache.rs:271-286 | a refill takes exactly the steps copy, record |
| ActiveCache.ActiveCache.CopySharedEntries | av-denoise-core/src/kernel_cache.rs:498-538 | missing entries are added as imported ones, none overwritten |
| WarmUp.StepKeepsClaims | av-denoise/src/warmup.rs:38-51 | the claimed keys are exactly those a process's filters hold or ask for, one filter each |
| WarmUp.StepKeepsLocks | av-denoise/src/warmup.rs:126-148 | a lock file is held for exactly the filter past waiting for it |
| WarmUp.StepKeepsStamps | av-denoise/src/warmup.rs:140-163 | a stamp is written at most once and never exists while its key is held |
| WarmUp.EveryRunIsOrderly | av-denoise/src/warmup.rs:94-171 | all three hold after any steps of any number of processes and filters, crashes included |
| WarmUp.OnePlacePerKey | av-denoise/src/warmup.rs:79-89 | at most one place per key is held anywhere, and it has no stamp |
| WarmUp.OnlyFinishStamps | av-denoise/src/warmup.rs:81-83 | a stamp appears if and only if a holder finishes and its write works; an abandoned place leaves none |
| WarmUp.AloneIsHeld | av-denoise/src/warmup.rs:106-152 | a filter left to itself, in a process that has not claimed its key, holds the place after its two looks and its lock if and only if there is no stamp and nobody has the lock, and has then taken the lock and the claim and nothing else |
| WarmUp.HoldingIsGivenBack | av-denoise/src/warmup.rs:165-171 | letting go of a place without finishing restores the queue as it was before the place was taken |
| WarmUp.Directory.BeginIn | av-denoise/src/warmup.rs:106-122 | with others acting in between: a place returned is held with no stamp on disk, and no place returned leaves no claim |
| WarmUp.Directory.Acquire | av-denoise/src/warmup.rs:125-152 | with others acting in between, a filter gets the place if and only if it waits until it finds the lock free and there is no stamp; a stamp that is there before the call, or that appears while it waits, keeps it from the place |
| WarmUp.Directory.GiveBack | av-denoise/src/warmup.rs:156-171 | a place given back is gone, finished or not, and a finish whose write works leaves the stamp |
| WarmCache.EveryPlaceRuns | av-denoise/src/warmup.rs:94-122 | over all runs of cache and queue together, every place in the queue is a running process's; a process that exits is gone from both |
| WarmCache.StampIsTrue | av-denoise/src/warmup.rs:154-163 | over all runs, when a stamp is written the kernels its holder's process compiled are shared if and only if it has nothing left to offer that is not |
| WarmCache.VouchedStaysShared | av-denoise/src/warmup.rs:10-16 | kernels that are shared when their stamp is written stay so, and the stamp stands for the same ones, whatever follows |
| WarmCache.FinishStands | av-denoise/src/warmup.rs:154-163 | over all runs that end with a finish, whatever becomes of its merge: the stamp is written, and its kernels are shared if and only if each one still to be merged landed or was there |
| WarmCache.SoundFinish | av-denoise/src/warmup.rs:154-163 | a finish whose merge meets no failure is as good as its word if and only if its process had seen a write since it last took note, or had nothing to offer that was not shared |
| WarmCache.FinishKeepsWord | av-denoise/src/warmup.rs:10-16 | in runs where no refill cuts in before a merge, a finish whose merge meets no failure is always as good as its word |
| WarmCache.WaiterHasKernels | av-denoise/src/warmup.rs:10-16 | over all runs, whoever sees a stamp and whose refill meets no failure has all its kernels if and only if it had them, or the shared file is not the one it last read or wrote and what it lacked is there |
| WarmCache.PromiseIsKept | av-denoise/src/warmup.rs:10-16 | a finish and then another's refill, over all runs before: the other has every kernel the holder compiled if and only if it had them, or the shared file was not the one it last read or wrote or the finish writes to it, and each kernel left to merge lands, was shared, or was its own |
| WarmCache.FailedMergeStamps | av-denoise/src/warmup.rs:156-163 | a run in which the merge fails, the stamp is written, and a waiter goes without the kernel |
| WarmCache.OwnMergeHidesStamp | av-denoise/src/warmup.rs:10-16 | a run in which the kernel is shared and stamped, and a waiter whose own merge came last goes without it |
| WarmCache.RefillEmptiesFinish | av-denoise/src/warmup.rs:129-131 | a run in which the holder refills before it finishes, its merge does nothing, and the stamp is written for a kernel nobody shares |
| Packing.OrAdds | av-denoise-core/src/engine/kernels.rs:134 | combining bit by bit codes in different lanes is adding them |
| Packing.ValidFits | av-denoise-core/src/engine/kernels.rs:36-53 | a format is taken if and only if a word has two or four lanes and its codes fit them |
| Packing.PackedReadsBack | av-denoise-core/src/engine/kernels.rs:46-53 | each lane reads back the code packed into it |
| Packing.WordIsPacked | av-denoise-core/src/engine/kernels.rs:121-147 | a word is what codes pack to if and only if they are its own codes |
| Packing.QuantisedBack | av-denoise-core/src/engine/kernels.rs:132-133 | a code survives being normalised and quantised if and only if it is at most the largest code; a larger one comes back as the largest |
| Packing.NearestCode | av-denoise-core/src/engine/kernels.rs:132-133 | a value from 0 to 1 becomes the nearest code, up from halfway, one below 0 becomes 0 and one above 1 the largest code |
| Packing.CodesAreEven | av-denoise-core/src/engine/kernels.rs:46-53 | the codes share out the values from 0 to 1 evenly, both ends included |
| Packing.WordHoldsNearest | av-denoise-core/src/engine/kernels.rs:121-147 | each lane of a word an egress writes reads back as the nearest code to its pixel's value, and as zero past the last pixel |
| Packing.EgressRestores | av-denoise-core/src/engine/kernels.rs:102-152 | an egress after an ingest restores a word if and only if its codes are the format's and its lanes past the last pixel are zero |
| Launches.EachIndexOnce | av-denoise-core/src/engine/kernels.rs:5-12 | each index is covered by exactly one thread, in exactly one round of its loop |
| Launches.InterleavedAt | av-denoise-core/src/engine/kernels.rs:93-95 | in any interleaving of the threads' single stores, an index holds what it is due as soon as its own thread has come to it, and what it held before until then |
| Launches.StoredAtMostOnce | av-denoise-core/src/engine/kernels.rs:93-95 | no channel of an index is ever stored twice |
| Launches.LaunchStoresAll | av-denoise-core/src/engine/kernels.rs:93-152 | once all threads have finished, in whatever order they moved, every index holds what it is due, stored exactly once, and nothing else has changed |
| Launches.AloneStoresShare | av-denoise-core/src/engine/kernels.rs:5-13 | a thread on its own stores exactly the indices it covers |
| Threads.CopyWords | av-denoise-core/src/engine/kernels.rs:7-13 | a thread copies exactly its words and touches no other |
| Threads.PackWord | av-denoise-core/src/engine/kernels.rs:121-147 | a word's lanes are packed lane by lane, each with the code `Packing.WordHoldsNearest` describes and zero past the last pixel |
| Threads.EgressThread | av-denoise-core/src/engine/kernels.rs:119-151 | a thread's loop makes exactly its stores of a launch, in order: each of its words of each plane |
| Threads.IngestThread | av-denoise-core/src/engine/kernels.rs:42-58 | a thread's loop makes exactly its stores of a launch, in order: each of its pixels, and nothing around the slot |
| Threads.IngestLaunch | av-denoise-core/src/engine/kernels.rs:25-59 | however the threads of an ingest interleave, once all have finished the slot holds the whole frame |
| Threads.EgressLaunch | av-denoise-core/src/engine/kernels.rs:102-152 | however the threads of an egress interleave, once all have finished each plane holds the whole frame |
| Threads.LaunchStoresNearest | av-denoise-core/src/engine/kernels.rs:102-152 | however the threads of an egress interleave, once all have finished each lane of each plane holds the nearest code to its pixel's value, and zero past the last pixel |
| Threads.RoundTrip | av-denoise-core/src/engine/kernels.rs:25-152 | unpacking a frame and packing it again, on any number of threads in either launch and in any interleaving, restores exactly the clean words of every plane |
| Pyramid.LevelIsScaled | av-denoise-core/src/motion/pyramid.rs:66-75 | the halving loop gives the size divided by a power of two, at least one pixel |
| Pyramid.PaddingCovers | av-denoise-core/src/engine/align.rs:44-47 | padding covers the count, adds less than a boundary, and is a multiple of it |
| Pyramid.BoundaryCovers | av-denoise-core/src/engine/align.rs:44-47 | a boundary is the fewest values that cover the alignment |
| Pyramid.ComputeLevelDims | av-denoise-core/src/motion/pyramid.rs:66-75 | the loop computes the dimensions of a level |
| Pyramid.PixelsPerFrame | av-denoise-core/src/motion/pyramid.rs:24-28 | the sum of every level's padded size |
| Pyramid.SlotByteOffset | av-denoise-core/src/motion/pyramid.rs:31-46 | the loop computes where a level and frame slot starts |
| Pyramid.SlotsAreDisjoint | av-denoise-core/src/motion/pyramid.rs:31-46 | of any two slots the earlier ends before the later starts, and both lie within the buffer |
| Pyramid.BoundaryIsAligned | av-denoise-core/src/engine/align.rs:44-47 | padding to whole values is aligned if and only if the alignment and the value size divide one another |
| Pyramid.EverySlotIsSound | av-denoise-core/src/motion/pyramid.rs:14-46 | for all dimensions, frame counts, levels and power-of-two alignments: every slot starts on an aligned byte, holds its level with less than one alignment to spare, fits the buffer and overlaps no other |

## Left out

- The numeric work of every GPU kernel (block matching, collaborative filtering, noise, grain and colour
  measurement): a pass adds its identity to every region and a search is named by its stream and frame.
- Kernel launches, device timing, tuning, the grain export, command-line parsing, the VapourSynth
  bindings and packing of strided planes: input, output or glue.
- The noise history that is smoothed along a stream: an output is identified by its passes and by the
  source frames each of them read. Under bounded reordering the calls themselves are proved the same, so
  the history is too.
- The NLMeans engine's own window and flush schedule is not part of this model. A repeated-edge stream is
  modelled from its first full window on, which is where every rebuild leaves it.
- The camera-model producer and the colour measurement inside the planar engine, which are taken never
  to fail.
- A pass's view names the ring slot of every position, where the source keeps the centre's beside a table
  of its neighbours'.
- Wrap-around of 32-bit indices and float rounding: indices are unbounded and values are reals.
- Parameter validation, key hashing, and the deletion of private files left behind by exited processes.
- The rotation of the host's two output sets and the host's own check of plane sizes; the engine's check
  of plane sizes is modelled.
- The write-ahead log of the database engine, namespaces that are never merged, and panics inside the
  database engine: a file is its entries, and a write state is a count that changes on every write. A merge
  under the lock always counts as changing the shared file's time, even if none of its entries landed.
- Two locks of one process, file systems without locks, and locks kept by crashed processes: a lock is
  held by one filter and is freed when its process ends.
- Host.HostDenoiser.Flush: stated for the scattering engine only, because no plan of a repeated-edge stream
  flushes and that engine's flush is not part of this model.
- Engine.Nl4d.Push: what a failed call leaves in the rings is not stated, because the engine refuses
  every call after it until a reset.
- Filter.Denoise.Render: a request that fails may leave outputs buffered; they are stated to be the outputs of
  a sequential render, not which ones they are.
- WarmUp.Directory.BeginIn: how long a filter waits is not modelled; a filter may give up at any time.

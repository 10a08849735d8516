# Westeros compositor core

A Dafny model of the in-memory protocol core of the Westeros compositor, with proofs about all of its
runs.  `dafny verify dfyconfig.toml` checks the whole project.

Westeros is a Wayland compositor that can show surfaces itself, be embedded in another program, or
repeat to a host compositor.  The model covers what happens in memory between a request, an input
event or a frame arriving and the messages that go out:

* **Stacking** (`ZLists`, `Stacking`, `Heights`, `Drawn`): the z-sorted surface lists of the compositor and
  of its two renderers, kept by separate code, and what is seen at a point.
* **Hit test and focus** (`HitTest`, `Devices`, `Seat`, `SeatSafety`, `Protocol`, `PointerOutcomes`,
  `KeyboardOutcomes`, `SurfaceOutcomes`, `SeatDelivery`, `SeatHandlers`, `SeatWitness`, `FocusScan`, with
  `SeatFrames` and `SeatMessages` below them): which surface is under the pointer, which protocol objects
  have the focus, and which enter, leave, motion, button and key messages they get; `OneScene` joins
  this to the lists.
* **Client buffers** (`Buffers`, `BufferOutcomes`, `BufferCycles`, `RemoteReleases`, `BufferHandlers`):
  attach, commit, compose and destroy, and the handover to a host compositor and back.
* **Video path** (`Vpc`): the handover of video between hardware and graphics.
* **Resources** (`ShmPool`, `Dmabuf`, `Textures`, `FrameCallbacks`, `EventQueue`): reference counts, file
  descriptors, textures, callbacks and queued events.
* **Pixels and lookups** (`Pixels`, `VirtualCompose`, `Ancestor`): the in-place pixel conversions, the
  visibility of surfaces while a virtual compositor draws, and the search for a client's compositor.

Each module with state is written twice.  Functions (`Step`, `Run` and what they call) say what every
request does to the state as a value, and lemmas prove properties of all runs: that nothing goes wrong,
and, request by request, what does happen, told by what clients see.  Classes hold the fields
and loops of the original; each of their methods is proved to change its fields exactly as the function
says, so the properties of runs hold of the handlers.  `log`, `wire`, `told` and `closed` record what
was sent, asked of the host or closed, in order.

Some of what one would want is not true of the code.  There the code is kept as it is; lemmas say
exactly when the wish is met, and others show a run, or a scene, in which it is not:

* The hit test returns a surface of another compositor when nothing is hit and the bottom-most surface is
  not its own (`HitTest.FoundIsWantedIff`; `HitTest.ForeignSurfaceReturned`).
* The hit test does not look at what is shown: a hidden surface can be hit, and a role-less one be seen
  through (`Drawn.HitIsSeenIff`, `OneScene.FocusIsSeenIff`; `Drawn.HiddenSurfaceHit`,
  `Drawn.RolelessSeenNotHit`).
* The pointer can be out and a surface get its focus (`SeatDelivery.OutMeansNoFocusIff`;
  `SeatWitness.FocusWhileOutReached`).
* The keyboard focus check on creation of a surface walks a list while splicing it into another.  With
  several keyboards of one client in the focus list it may not end (`SeatSafety.StuckIff`,
  `KeyboardOutcomes.KeyboardFocusAfter`, `FocusScan.ScanEndsIff`; `SeatWitness.HangReached`).
* A new keyboard is told to enter the latest surface of its client, even if another one has the focus,
  and nothing if there is none (`SeatSafety.PoliteIffSafeForPolite`, `SeatSafety.KeyboardExactIff`;
  `SeatWitness.WrongLeaveReached`).
* A new pointer object over a surface that already has the focus is told nothing until the focus comes
  back (`SeatDelivery.NewPointerEntersIff`; `SeatWitness.SilentPointerReached`).
* A buffer destroyed by its client after the handover is still referred to, and a release is sent for it
  (`Buffers.NoDeadRefsIff`; `BufferCycles.LateReleaseReached`).
* A surface tracks one clone at the host only; destroyed, it leaves others there
  (`BufferCycles.NoOrphansIff`; `BufferCycles.OrphanReached`).
* A wish for another video path that flips back does not cancel the handover it started
  (`Vpc.OneRoundIff`; `Vpc.FlippedWishReached`).
* A video surface can be hidden while graphics are in use, or visible while the hardware is
  (`Vpc.VisibleMeansGraphicsIff`; `Vpc.HiddenGraphicsReached`, `Vpc.VisibleHardwareReached`).
* Params destroyed before create leave the descriptors of planes beyond planeCount open
  (`Dmabuf.DestroyClosesAllIff`; `Dmabuf.SparsePlaneStaysOpen`).

## Model

| member | source | states |
|---|---|---|
| Stacking.ListsAreStacked | westeros-compositor.cpp:5709-5734 | after every run of create, destroy, set-zorder, set-role and set-cursor requests both lists hold exactly the live surfaces, sorted by the z last asked for in that list, later insertions above equals; heights are read off the request history, not off the lists |
| Stacking.RendererListIsStacked | westeros-render-embedded.cpp:2079-2116 | the same for the list of the renderer alone, whose surfaces a set-cursor also raises |
| Stacking.HeightsAgree | westeros-compositor.cpp:9535-9565 | only a surface with the permanent cursor role can stand at different heights in the two lists |
| Stacking.SameStackExceptCursors | westeros-compositor.cpp:3584-3605 | in every run the two lists without the surfaces of cursor role are the same sequence |
| Stacking.CursorSplitsLists | westeros-compositor.cpp:9540-9548 | the restriction is needed: a run after which a cursor surface is at different places in the two lists |
| Stacking.PutStacked | westeros-render-gl.cpp:2320-2352 | taking a surface out and inserting it before the first one strictly higher keeps a list sorted, the reinserted one on top of its equals |
| Heights.AboveIff | westeros-compositor.cpp:5709-5734 | in every run and either list, of two surfaces the one is above that was placed with the higher z or, at the same z, later; placing requests and their z found by position in the history |
| Heights.RaisedCursorOnTop | westeros-compositor.cpp:9540-9543 | in every run a surface last placed by a set-cursor stands above every one last placed below 1000000, whatever came later |
| Heights.LaterBelowCursor | westeros-compositor.cpp:9540-9543 | a surface made after the cursor was raised stays below it |
| Heights.RoleAfter | westeros-compositor.cpp:5680-5707 | which surfaces are alive after each request, and their roles: none at first, then the first one asked for, for good |
| ZLists.PutDistinct | westeros-compositor.cpp:5709-5734 | reinsertion neither loses nor duplicates a surface |
| ZLists.SurfaceVector.Erase | westeros-render-embedded.cpp:2312-2322 | the erase-and-break loop removes the first occurrence |
| ZLists.SurfaceVector.SetZOrder | westeros-render-embedded.cpp:2306-2345 | the erase and the insert loop together move the surface to its slot |
| ZLists.SurfaceVector.Destroy | westeros-render-embedded.cpp:2100-2116 | the surface is off the list and nothing else moves |
| HitTest.HitTestCorrect | westeros-compositor.cpp:5749-5821 | the surface found is the top-most one of this compositor with a role other than cursor that contains the point; failing any such role at all, the top-most role-less non-video one; else none: with the bottom-most surface not foreign |
| HitTest.FoundIsWantedIff | westeros-compositor.cpp:5757-5766 | what the code returns is the wanted surface exactly when a wanted one exists or the bottom-most surface is not of another compositor |
| HitTest.ForeignSurfaceReturned | westeros-compositor.cpp:5757-5766 | a scene in which nothing is hit and the code returns a surface of another compositor |
| HitTest.CursorAreaIrrelevant | westeros-compositor.cpp:9567-9577 | moving the cursor surface never changes what is under the pointer |
| HitTest.GetSurfaceFromPoint | westeros-compositor.cpp:5749-5821 | the reverse scan, with its two candidates and early exits, computes the result above |
| HitTest.HitByPositions | westeros-compositor.cpp:5749-5821 | with the bounds and roles spelled out: of several surfaces with a shell or xdg role at the point the last in the list is found, of several without role or video the last if no surface has such a role, and nothing else ever |
| Drawn.HitIsSeenIff | westeros-compositor.cpp:5749-5821 | after every run of the lists, for any compositor, point and set of shown surfaces: the hit is the top-most shown surface of the renderer's list, cursors apart, exactly when that one is a target (with a role; if no surface has one, role-less and no video) and every hidden target was put lower by the requests; nothing seen, exactly when no target is hidden there |
| Drawn.ListsInterchangeable | westeros-compositor.cpp:5749-5821 | in every run the hit test gives the same answer on the renderer's list as on the compositor's |
| Drawn.HiddenSurfaceHit | westeros-compositor.cpp:3488-3503 | a run and a scene in which the upper of two surfaces is hidden, the lower one is seen, and the hidden one is hit |
| Drawn.RolelessSeenNotHit | westeros-compositor.cpp:5766-5811 | a run and a scene with nothing hidden in which the upper surface has no role and is seen, and the lower one is hit |
| Drawn.SameTopMost | westeros-render-embedded.cpp:2306-2345 | in every run both lists have the same top-most surface of any kind that no cursor surface is of |
| OneScene.SceneFollowsLists | westeros-compositor.cpp:5709-5734 | every run of the seat makes a run of both lists with the same order, surfaces and roles: what is proved of either holds of both |
| OneScene.FocusIsSeenIff | westeros-compositor.cpp:9507-9533 | joins seat, lists and hit test: in every run that does not hang, after a pointer move or the destruction of a surface, the pointer focus is what is seen under the pointer exactly when that is a target and every hidden target was put lower |
| SeatSafety.PointerTraceSafe | westeros-compositor.cpp:9579-9624 | in every run each pointer object sees enter, then motion and button, then leave; a second enter only after a leave or after the entered surface has died; enters name live surfaces of the object's own client |
| SeatSafety.PointerFocusIsHit | westeros-compositor.cpp:9507-9533 | after every pointer move and every destruction of a surface the pointer focus is the hit test's answer at the stored position |
| SeatSafety.KeyboardListInvariant | westeros-compositor.cpp:9289-9305 | in every run the two lists partition the live keyboard objects, the focus list never mixes clients, and with a focus it is exactly the objects of the focused surface's client |
| SeatSafety.SetFocusKeepsListeners | westeros-compositor.cpp:9210-9287 | giving the focus to a surface never empties a focus list that is not empty |
| SeatSafety.KeyReachesOneClient | westeros-compositor.cpp:9077-9084 | the messages of one key event all go to objects of one client, live ones |
| SeatSafety.KeyboardTraceSafe | westeros-compositor.cpp:8171-8293 | as long as no client makes another keyboard while its latest surface is not the one in focus, enter and leave of keyboards pair up like those of pointers |
| SeatSafety.KeyboardExactIff | westeros-compositor.cpp:8254-8290 | a step keeps "exactly the focus list has entered, and the focused surface" exactly when it is polite in that sense |
| SeatSafety.StuckIff | westeros-compositor.cpp:9141-9208 | the focus check at creation of a surface never returns exactly when the client has several objects in the focus list, and the first match of the scan is not the last entry |
| SeatSafety.StepKeepsInv | westeros-compositor.cpp:8130-8293 | every request and event keeps all of the invariants of both devices and of the scene |
| SeatSafety.RunKeepsInv | westeros-compositor.cpp:9141-9642 | so do all runs |
| SeatSafety.PoliteIffSafeForPolite | westeros-compositor.cpp:8171-8293 | a request keeps to the rule that a client in focus makes another keyboard only while its latest surface has the focus exactly if no continuation that keeps to it sends a keyboard message against the protocol |
| SeatSafety.ImpoliteBreaksProtocol | westeros-compositor.cpp:8254-8290 | one way it goes wrong: the client's latest surface is not the one in focus; focusing it sends a leave for a surface the new object never entered |
| SeatSafety.UnwelcomeBreaksProtocol | westeros-compositor.cpp:8234-8266 | the other: the client has no latest surface; the new object is told nothing, and told to leave once the client has made a surface and that is focused |
| SeatSafety.RefsAreLive | westeros-compositor.cpp:5521-5678 | in every run the cursor, both focuses, the client infos and the stacking order name live surfaces only, the cursor one of cursor role, each info one of its own client |
| Protocol.PointerOrderly | westeros-compositor.cpp:9579-9624 | PointerTraceSafe by positions in the log, with no observer: in every run an enter comes only while the last word on the object is not an unended enter, for a surface announced and not gone, of the client that holds the object; leave, motion and button only while the last word is an enter into a surface not gone |
| Protocol.KeyboardOrderly | westeros-compositor.cpp:8171-8293 | the same of enter, leave and key messages of keyboards in polite runs |
| Protocol.SafeIsOrderly | westeros-compositor.cpp:9423-9477 | the description of the protocol message by message and the one by positions admit the same logs |
| PointerOutcomes.InsideAfter | westeros-compositor.cpp:9579-9624 | after every request and event: with a new focus exactly the pointer objects of its surface's client are inside it; with the old one exactly those inside before and not released; without one nobody is inside anything |
| PointerOutcomes.PointerFocusAfter | westeros-compositor.cpp:9507-9533 | after every request and event the pointer focus is the wanted surface at the stored position if the request looks for it (a move, a destruction, coming in when nested, a new object while in), none if the pointer went out, else the old one |
| PointerOutcomes.PointerMessages | westeros-compositor.cpp:9579-9618 | how often every step sends every pointer message: one leave to each object inside the old focus, if that lives, one enter to each inside the new one, one motion or button to each inside; and none else |
| PointerOutcomes.PositionAfter | westeros-compositor.cpp:9307-9421 | where the pointer is after every step, and whether it is in |
| KeyboardOutcomes.KeyboardFocusAfter | westeros-compositor.cpp:9141-9208 | which surface has the keyboard focus after every step: a new surface or xdg role gets a focus nobody has exactly if its client has a keyboard object and, using xdg, the role; a new object takes a free one for its client's latest surface; requests and presses get it unless the client has no object while others listen; and exactly when the step hangs |
| KeyboardOutcomes.ListenersAfter | westeros-compositor.cpp:9289-9305 | who gets the keys after every step: with a focus exactly the objects of its surface's client; without one those of the client that made an object while nobody listened, else who did before and is not released |
| KeyboardOutcomes.KeyboardMessages | westeros-compositor.cpp:8254-8290 | how often every step sends every keyboard message: leaves and enters at a change of focus, the enter of a new object of the client in focus, one key to each listener; and none else |
| KeyboardOutcomes.News | westeros-compositor.cpp:8130-8195 | surfaces and objects are announced once each, when made and when gone |
| SurfaceOutcomes.SurfaceAfter | westeros-compositor.cpp:5319-5382 | what every step makes of every surface: which are alive, their clients, the role taken once, the video flag, the area |
| SurfaceOutcomes.CursorAfter | westeros-compositor.cpp:8338-8400 | after every step: the cursor surface and hot spot are taken over exactly when the client may, has the focus or there is none, and the surface has no other role; hidden exactly when it dies, when its client is left, or when nothing, or a dead surface, was in focus, unless the compositor shows its own; else kept |
| SurfaceOutcomes.KnownAfter | westeros-compositor.cpp:5846-5890 | the latest surface of each client, and who uses xdg, after every step |
| SeatMessages.StepSends | westeros-compositor.cpp:9440-9462 | everything a step sends, in order: news or buttons or keys, then leaves and enters of a changed pointer focus, then of a changed keyboard focus, then motions or the enter of a new keyboard |
| SeatDelivery.MotionDelivered | westeros-compositor.cpp:9423-9477 | the last thing a move sends is one motion to each object inside the surface then in focus, and to no other |
| SeatDelivery.ButtonDelivered | westeros-compositor.cpp:9479-9505 | a button event first sends one button to each object inside the focused surface, and to no other |
| SeatDelivery.PressTakesKeyboardIff | westeros-compositor.cpp:9495-9503 | a press moves the keyboard focus to the pointer's exactly unless the client there has no keyboard while those of another one are listening |
| SeatDelivery.NewPointerEntersIff | westeros-compositor.cpp:8130-8169 | a new pointer object enters a surface at once exactly if the pointer has come in and the surface under it is of its client and not in focus yet |
| SeatDelivery.CursorFollowsPointer | westeros-compositor.cpp:9567-9577 | after a move the cursor surface, if shown, has its hot spot where the pointer is and its old size |
| SeatDelivery.OutMeansNoFocusIff | westeros-compositor.cpp:5664-5674 | while the pointer is out there is no focus, until exactly a pointer move or the destruction of a surface finds a surface at the stored position |
| SeatWitness.HangReached | westeros-compositor.cpp:9188-9197 | two keyboards, the focused surface destroyed, another one made: the hang is reached by ordinary requests |
| SeatWitness.WrongLeaveReached | westeros-compositor.cpp:8276-8287 | an ordinary run after which a client has been told to leave a surface that keyboard never entered |
| SeatWitness.FocusWhileOutReached | westeros-compositor.cpp:9402-9420 | a run in which the pointer goes out, another surface comes and goes, and the one at the origin gets the focus |
| SeatWitness.SilentPointerReached | westeros-compositor.cpp:8130-8169 | an ordinary run after which the pointer is on a focused surface of a client whose new pointer object has entered nothing |
| FocusScan.SpliceRings | westeros-compositor.cpp:9289-9296 | splicing one ring of next pointers into the other leaves the focus head alone in its ring |
| FocusScan.WalkEndsIff | westeros-compositor.cpp:9188-9197 | the walk whose list is spliced under it comes back to the focus head exactly when the first match was the last entry |
| FocusScan.ScanEndsIff | westeros-compositor.cpp:9188-9197 | the condition the seat model uses is the one the pointers give |
| Devices.MoveFocusPartitions | westeros-compositor.cpp:9289-9305 | moving the focus loses no object and leaves in the focus list exactly those of the client |
| Devices.ForgetPartitions | westeros-compositor.cpp:8076-8079 | releasing an object takes it, and only it, out of its list |
| Devices.EnterAll | westeros-compositor.cpp:9600-9618 | entering every listed object is legal for each and puts exactly these inside |
| Devices.LeaveAll | westeros-compositor.cpp:9585-9597 | leaving every listed object is legal and puts exactly these outside |
| Devices.InputDevice.MoveFocusToClient | westeros-compositor.cpp:9626-9642 | the loop that removes and reinserts list nodes does this |
| SeatHandlers.Compositor.Handle | westeros-compositor.cpp:4315-4532 | every handler called in place of its request does exactly what Seat.Step says, so what is proved of runs holds of the handlers |
| SeatHandlers.Compositor.PointerSetFocus | westeros-compositor.cpp:9579-9624 | leave, move of the lists, enter and hiding of the cursor, as one step of the state machine |
| SeatHandlers.Compositor.PointerCheckFocus | westeros-compositor.cpp:9507-9533 | focus goes to the surface under the pointer |
| SeatHandlers.Compositor.PointerUpdatePosition | westeros-compositor.cpp:9567-9577 | the cursor surface is put at the pointer less the hot spot |
| SeatHandlers.Compositor.PointerEnter | westeros-compositor.cpp:9307-9361 | the pointer comes in |
| SeatHandlers.Compositor.PointerLeave | westeros-compositor.cpp:9363-9421 | the pointer goes out |
| SeatHandlers.Compositor.PointerMoveEvent | westeros-compositor.cpp:9423-9477 | new focus first, then motion to the focus list, then the cursor follows |
| SeatHandlers.Compositor.PointerButtonEvent | westeros-compositor.cpp:9479-9505 | button to the focus list; a press also takes the keyboard focus |
| SeatHandlers.Compositor.KeyboardSetFocus | westeros-compositor.cpp:9210-9287 | whole new state, with the refusal for clients without keyboards |
| SeatHandlers.Compositor.KeyboardCheckFocus | westeros-compositor.cpp:9141-9208 | whole new state, with the splice and the case in which the scan does not end |
| SeatHandlers.Compositor.KeyEvent | westeros-compositor.cpp:9022-9085 | one key message per object of the focus list, in list order |
| SeatHandlers.Compositor.CreateSurface | westeros-compositor.cpp:5319-5382 | surface made, client info updated, keyboard focus checked |
| SeatHandlers.Compositor.UnlinkSurface | westeros-compositor.cpp:5549-5654 | the surface out of every focus, list and client info |
| SeatHandlers.Compositor.DestroySurface | westeros-compositor.cpp:5521-5678 | and then the pointer focus checked again |
| SeatHandlers.Compositor.SetRoleOf | westeros-compositor.cpp:5680-5707 | a role is taken once; asking for the same one again succeeds |
| SeatHandlers.Compositor.GetPointer | westeros-compositor.cpp:8130-8169 | whole new state |
| SeatHandlers.Compositor.GetKeyboard | westeros-compositor.cpp:8171-8293 | whole new state, with both ways the new object can get the focus |
| SeatHandlers.Compositor.SetCursor | westeros-compositor.cpp:8338-8411 | whole new state, with both refusals |
| SeatHandlers.Compositor.ShowCursor | westeros-compositor.cpp:8379-8400 | the cursor surface and hot spot taken over |
| SeatHandlers.Compositor.Release | westeros-compositor.cpp:8076-8079 | an object leaves its list |
| Buffers.BuffersConserved | westeros-compositor.cpp:5891-5962 | over every run, across compositor and nested connection: acquisitions of a buffer by attach = held by surfaces + at the host + queued for release + released + destroyed while held + abandoned with their surface |
| Buffers.ListenersMatchSlots | westeros-compositor.cpp:5418-5428 | a destroy listener hangs on a buffer exactly when its slot holds that buffer, and no surface holds one buffer in both slots |
| Buffers.DetachedReleased | westeros-compositor.cpp:4708-4722 | after a commit without a buffer, or composing a frame, no detached buffer is left |
| Buffers.ClonesDestroyedOnce | westeros-nested.cpp:888-927 | each clone is destroyed exactly once, when it leaves the host; what a surface tracks is alive and its own |
| Buffers.NoDeadRefsIff | westeros-nested.cpp:1054-1080 | a step leaves no reference to a destroyed buffer exactly when it is not the destruction of a buffer still handed over |
| Buffers.ReleasesReachLiveBuffers | westeros-nested.cpp:1175-1186 | while clients respect that, no release is ever sent for a destroyed buffer |
| Buffers.StepKeepsInv | westeros-compositor.cpp:6101-6206 | every request, host release and tick keeps accounts, listeners, clones and queue in order |
| Buffers.RunKeepsInv | westeros-compositor.cpp:6101-6206 | so do all runs, in each of the three modes |
| Buffers.SignalOk | westeros-compositor.cpp:5418-5428 | destroying a buffer empties exactly the slots that hold it |
| Buffers.HandOverBalance | westeros-nested.cpp:1142-1173 | a handover moves one reference from the attached slot to the host |
| Buffers.RemoteReleasesInHostOrder | westeros-nested.cpp:888-927 | the release queue holds entries of live surfaces only, in that order too |
| BufferOutcomes.SlotsAfter | westeros-compositor.cpp:5891-5962 | what every surface's two slots hold after every operation |
| BufferOutcomes.EventsAfter | westeros-compositor.cpp:5532-5547 | how often every operation acquires, releases, loses and gives up every buffer: a destroyed surface releases both of its buffers, and gives up only what is at the host or has come back from there |
| BufferOutcomes.DestroyReleases | westeros-compositor.cpp:5532-5547 | a destroyed surface first releases its detached and then its attached buffer |
| BufferOutcomes.GivenUpWasHandedOver | westeros-nested.cpp:888-927 | in every run a buffer is given up only if it was handed over to the host |
| BufferOutcomes.NothingGivenUp | westeros-compositor.cpp:5532-5547 | in every run that is not of a repeater, every buffer taken is still held, was released, or was destroyed by its client while held; none is given up |
| BufferOutcomes.ClonesAfter | westeros-nested.cpp:1142-1173 | which clones are at the host after every operation, and the buffer each stands for |
| BufferOutcomes.TrackingAfter | westeros-nested.cpp:1054-1080 | which clone a surface tracks after every operation |
| BufferOutcomes.QueueAfter | westeros-nested.cpp:1054-1186 | what is queued for release after every operation |
| BufferCycles.HandOverCycle | westeros-nested.cpp:1054-1186 | commit, host release and tick: the buffer leaves its surface, is in flight, is queued behind those released before it, and goes back to its client once; the queue is empty then, the same clones as before are at the host, and the surface tracks none |
| BufferCycles.SurfaceGoesFirst | westeros-nested.cpp:888-927 | if the surface goes first its clone is destroyed once, and a later host release finds nothing |
| BufferCycles.NoOrphansIff | westeros-nested.cpp:888-927 | a step leaves at the host clones of live surfaces only, exactly when it is not the destruction of a surface with a clone there that it does not track |
| BufferCycles.LeftAtHost | westeros-nested.cpp:895-905 | what a destroyed surface leaves at the host is exactly its untracked clones; those of others stay |
| BufferCycles.OrphanReached | westeros-nested.cpp:1054-1080 | a run of six requests after which the host has a clone of a surface destroyed; its buffer is never released to the client |
| BufferCycles.ReleasedByThirdAttach | westeros-compositor.cpp:5891-5962 | of three buffers attached in turn the first goes back to the client with the third attach, once, after the second was taken and before the third is |
| BufferCycles.AttachMoves | westeros-compositor.cpp:5891-5962 | attaching another buffer touches no other surface and nothing at the host; attaching the same one does nothing |
| BufferCycles.LateReleaseReached | westeros-nested.cpp:1175-1186 | a run of six requests after which a release is sent for a buffer its client has destroyed |
| RemoteReleases.RemoteReleasesMatchHost | westeros-nested.cpp:1054-1186 | in every run the i-th release message for a buffer from the host is for the buffer the i-th of a series of clones was made of; the series is in the order the host released the clones, each at most once |
| BufferHandlers.BufferKeeper.Handle | westeros-compositor.cpp:5891-5962 | every handler does exactly what Buffers.Step says and keeps its invariant |
| BufferHandlers.BufferKeeper.Attach | westeros-compositor.cpp:5891-5962 | whole new state, with the early exit for the same buffer |
| BufferHandlers.BufferKeeper.Commit | westeros-compositor.cpp:6101-6206 | whole new state, handed over or not |
| BufferHandlers.BufferKeeper.ReleaseDetachedBuffers | westeros-compositor.cpp:4708-4722 | the loop over all surfaces |
| BufferHandlers.BufferKeeper.AttachAndCommitClone | westeros-nested.cpp:1142-1173 | a new clone in flight, tracked by its surface |
| BufferHandlers.BufferKeeper.BufferRelease | westeros-nested.cpp:1054-1080 | clone destroyed, buffer queued if the surface is still known |
| BufferHandlers.BufferKeeper.ReleaseRemoteBuffers | westeros-nested.cpp:1175-1186 | the draining loop releases every entry once, front to back |
| BufferHandlers.BufferKeeper.PurgeEntries | westeros-nested.cpp:906-922 | the erase-or-advance loop removes exactly the entries of the surface |
| BufferHandlers.BufferKeeper.NestedDestroySurface | westeros-nested.cpp:888-927 | tracked clone destroyed, info and entries gone |
| BufferHandlers.BufferKeeper.DestroySurface | westeros-compositor.cpp:5532-5547 | both slots released, then the nested side |
| BufferHandlers.BufferKeeper.CallListeners | westeros-compositor.cpp:5418-5428 | the destroy callbacks empty exactly the slots that hold the buffer |
| BufferHandlers.BufferKeeper.DestroyBuffer | westeros-compositor.cpp:5418-5428 | whole new state |
| BufferHandlers.BufferKeeper.CreateSurface | westeros-nested.cpp:866-886 | an empty surface, known to the nested side of a repeater |
| Vpc.PendingIffPathsDiffer | westeros-compositor.cpp:8754-8773 | in every reachable state a handover is pending exactly when the path in use differs from the next one, and the client was last told the next one |
| Vpc.SteadyWishConverges | westeros-compositor.cpp:6267-6279 | with a steady wish, a matching commit, an update and a matching commit, with anything else before, between and after, lead from any state to the wished path, with nothing pending and the client told |
| Vpc.SteadyStep | westeros-compositor.cpp:8754-8773 | no step under a steady wish leads away from it |
| Vpc.OneRoundIff | westeros-compositor.cpp:8754-8773 | one update and one matching commit suffice exactly when no handover away from the wish was pending while the wished path is still in use: flipping the wish back does not cancel a handover |
| Vpc.HoleStaysPut | westeros-compositor.cpp:8804-8834 | from the update that starts a handover from hardware to graphics, no sequence of updates, moves and non-ending commits changes the hardware rectangle or the hole, even if the wish flips back; geometry requests excepted |
| Vpc.RunKeepsPathInv | westeros-compositor.cpp:8476-8493 | the path invariant holds in every run from a new vpc surface |
| Vpc.VpcSurface.constructor | westeros-compositor.cpp:8476-8493 | initial path, rectangle and visibility |
| Vpc.VpcSurface.Update | westeros-compositor.cpp:8736-8865 | whole new state of one surface and the hole it asks for |
| Vpc.VpcSurface.Committed | westeros-compositor.cpp:6267-6279 | whole new state |
| Vpc.VpcSurface.SetGeometry | westeros-compositor.cpp:8597-8628 | whole new state |
| Vpc.VisibleMeansGraphicsIff | westeros-compositor.cpp:6267-6279 | the surface is visible exactly while graphics are in use if the end of a handover was the last to set its visibility; else, if the last request to show or hide it fits the path settled on in the messages; without such a request, while that path is hardware |
| Vpc.PathIsSettled | westeros-compositor.cpp:8754-8773 | the path in use can be read off the messages: what was told last when a handover last ended, before that what was told first, without repeater support what was told last |
| Vpc.HiddenGraphicsReached | westeros-compositor.cpp:8504-8507 | a first frame that is animated leaves graphics in use and the surface hidden |
| Vpc.VisibleHardwareReached | westeros-compositor.cpp:3488-3503 | a request to show the surface while the hardware path is in use is carried out |
| Vpc.FlippedWishReached | westeros-compositor.cpp:8754-8773 | a run in which the wish is back at hardware before the first picture, and graphics end up in use |
| Vpc.PictureEndsHandover | westeros-compositor.cpp:6267-6279 | the first picture after any such wait finds the rectangle where it was, shows the surface, puts graphics in use and closes the hole |
| Vpc.PlacedInsideOutput | westeros-compositor.cpp:8804-8834 | for every matrix, no surface is placed further beyond the image of the output's edge than three roundings; not at all if it starts inside and nothing is mirrored or shifted to negative coordinates |
| Vpc.UpdateVPCSurfaces | westeros-compositor.cpp:8670-8867 | the loop updates each surface of the compositor once, from its own state, leaves the others alone, and collects the holes in list order |
| Vpc.StepAfter | westeros-compositor.cpp:8736-8865 | what every step does, by the messages sent: among others, an update moves the hardware rectangle to the image of the surface exactly when the matrix does not rotate and the client was last told hardware |
| Vpc.HoleIff | westeros-compositor.cpp:8828-8845 | in every run a hole is punched, for the hardware rectangle, exactly while hardware is in use or was told last, once a geometry was requested |
| Vpc.PlacedNear | westeros-compositor.cpp:8804-8834 | each coordinate of a placed surface is where the matrix sends it, and its size as large as what is sent of the part inside the output, up to rounding |
| Vpc.PlacedWhereItIs | westeros-compositor.cpp:8804-8834 | unscaled and unshifted, a surface inside the output is placed at its own area |
| Vpc.MovedVideoFollows | westeros-compositor.cpp:8825-8831 | a run in which the video of a moved surface is shown where the surface is |
| ShmPool.RefCountExact | westeros-compositor.cpp:5111-5126 | in every run the reference count is one for a live pool resource plus the number of live buffers of the pool, and the pool is in memory exactly while that is not zero |
| ShmPool.NoDanglingPool | westeros-compositor.cpp:5014-5029 | no live buffer points to a freed pool |
| ShmPool.NestedPoolDroppedOnce | westeros-compositor.cpp:5111-5126 | the nested pool is destroyed exactly once, when resource and buffers have gone, and nothing is asked of it afterwards |
| ShmPool.NestedBuffersDroppedBefore | westeros-compositor.cpp:5014-5029 | every nested buffer is destroyed exactly once and before its nested pool |
| ShmPool.StepKeepsInv | westeros-compositor.cpp:4968-5126 | every request keeps counts and order |
| ShmPool.Shm.Handle | westeros-compositor.cpp:4968-5126 | every handler does exactly what ShmPool.Step says |
| ShmPool.Shm.PoolUnRef | westeros-compositor.cpp:5111-5126 | one reference less, and the pool freed with the last |
| ShmPool.Shm.BufferDestroy | westeros-compositor.cpp:5014-5029 | nested buffer first, then the reference |
| ShmPool.RequestAfter | westeros-compositor.cpp:4968-5126 | what every request asks of the nested connection, and which pools and buffers are left, told without reference counts: a pool is dropped with the last of its resource and buffers |
| Dmabuf.CreateSucceedsIff | linux-dmabuf/westeros-linux-dmabuf.cpp:168-259 | in every run planeCount is the number of assigned planes; create succeeds exactly when the dimensions are not negative and the assigned planes are 0 up to some count, at least one |
| Dmabuf.NoneMissingIffPrefix | linux-dmabuf/westeros-linux-dmabuf.cpp:205-216 | pigeonhole: as many planes as counted and none missing below the count means exactly the planes below it |
| Dmabuf.CountKeptIff | linux-dmabuf/westeros-linux-dmabuf.cpp:151-165 | adding keeps the count right exactly if the descriptor is not the mark of a free slot |
| Dmabuf.DescriptorsConserved | linux-dmabuf/westeros-linux-dmabuf.cpp:98-166 | each descriptor that came with a request is in a slot or was closed, as often as it came: also those of rejected requests |
| Dmabuf.DestroyClosesAllIff | linux-dmabuf/westeros-linux-dmabuf.cpp:55-70 | destroying closes everything still open exactly when the assigned planes are those below planeCount |
| Dmabuf.CreatedBufferClosesAll | linux-dmabuf/westeros-linux-dmabuf.cpp:55-70 | so destroying an accepted buffer closes every descriptor exactly as often as it was given |
| Dmabuf.SparsePlaneStaysOpen | linux-dmabuf/westeros-linux-dmabuf.cpp:55-70 | a plane added out of order stays open if the params are destroyed before create |
| Dmabuf.ModifierKeepsHalves | linux-dmabuf/westeros-linux-dmabuf.cpp:156-163 | from version 3 on both halves of the modifier can be read back; before, it is the invalid one |
| Dmabuf.Run | linux-dmabuf/westeros-linux-dmabuf.cpp:305-348 | every run from new params keeps the invariant on slots, count, owner and descriptors |
| Dmabuf.LdbBuffer.constructor | linux-dmabuf/westeros-linux-dmabuf.cpp:305-348 | four free slots with the invalid modifier |
| Dmabuf.LdbBuffer.Add | linux-dmabuf/westeros-linux-dmabuf.cpp:98-166 | whole new state and the error, with each of the four arrays |
| Dmabuf.LdbBuffer.Destroy | linux-dmabuf/westeros-linux-dmabuf.cpp:55-70 | the closing loop stays in bounds and closes the slots below planeCount in order |
| Dmabuf.LdbBuffer.Create | linux-dmabuf/westeros-linux-dmabuf.cpp:168-259 | whole new state and the error |
| Dmabuf.AddAfter | linux-dmabuf/westeros-linux-dmabuf.cpp:98-166 | a descriptor is kept exactly for a free plane 0 to 3 before create; else it is closed and the error says which check failed |
| Dmabuf.CreateAfter | linux-dmabuf/westeros-linux-dmabuf.cpp:168-259 | which error a refused create gives, and whose the planes are afterwards |
| Textures.TextureInOnePlace | westeros-render-embedded.cpp:605-615 | every generated texture is in exactly one of: one slot of one surface, the dead list, the deleted ones; and is deleted at most once |
| Textures.FrameLeavesOnlySlots | westeros-render-embedded.cpp:2686-2695 | after the end of a frame the textures not deleted are exactly those in slots; with no surface left, every texture ever generated has been deleted |
| Textures.DeletedForGood | westeros-render-embedded.cpp:2681-2695 | a deleted texture never comes back to a slot |
| Textures.StepKeepsInv | westeros-render-embedded.cpp:582-615 | every step keeps the partition, whether a texture is deleted at once or later |
| Textures.RenderFills | westeros-render-embedded.cpp:1564-1574 | rendering leaves no slot in use without a texture, and takes none away |
| Textures.RetireOk | westeros-render-embedded.cpp:708-713 | replacing an image moves the texture of that slot, and no other, to the dead or the deleted |
| Textures.Renderer.Handle | westeros-render-embedded.cpp:1564-1574 | every method does exactly what Textures.Step says |
| Textures.Renderer.NewImage | westeros-render-embedded.cpp:753-757 | whole new state |
| Textures.Renderer.FlushSurface | westeros-render-embedded.cpp:582-615 | the loop over the slots |
| Textures.Renderer.DestroySurface | westeros-render-embedded.cpp:562-580 | flushed and gone |
| Textures.Renderer.RenderSurface | westeros-render-embedded.cpp:1564-1574 | the loop generates a texture for each empty slot in use |
| Textures.Renderer.ProcessDeadTextures | westeros-render-embedded.cpp:2686-2695 | the backward loop with pop_back deletes each dead texture once |
| Textures.SlotsAfter | westeros-render-embedded.cpp:1564-1574 | what every step makes of every texture slot: emptied, filled if in use and empty, or left alone |
| Textures.GoneAfter | westeros-render-embedded.cpp:708-713 | where textures go that leave their slot, and that the end of a frame deletes the dead ones |
| Pixels.RotateBytes | westeros-render-embedded.cpp:974-989 | the word rotation moves each byte of the register to the next place up |
| Pixels.ConvertedAt | westeros-render-embedded.cpp:970-1021 | each pixel is converted exactly once from its own four bytes, and no other byte changes |
| Pixels.TransformA | westeros-render-embedded.cpp:974-989 | the nested loops of the rotation, in bounds, for all widths and heights |
| Pixels.TransformB | westeros-render-gl.cpp:945-962 | the nested loops of the swap |
| Pixels.FillAlpha | westeros-render-gl.cpp:963-976 | the nested loops that only fill alpha |
| Pixels.CommitShm | westeros-render-embedded.cpp:970-1021 | the whole conversion, and that the colours shown are those meant for the formats of the two rows on colours below |
| Pixels.ColoursKept | westeros-render-embedded.cpp:836-1021 | for both formats a client can use, on machines of either byte order, with or without BGRA in GL: every pixel shows the colour the client means |
| Pixels.ColoursKeptIff | westeros-render-embedded.cpp:836-940 | a remark on the branches for the other two formats, which no client reaches: they would be right exactly on big endian machines |
| Pixels.SwapUndone | westeros-render-embedded.cpp:990-1007 | swapping a whole buffer twice without alpha fill restores every byte |
| Pixels.ConversionsUndone | westeros-render-embedded.cpp:974-1007 | without alpha fill four rotations, or two swaps, restore a pixel |
| EventQueue.Queue.ProcessEvents | westeros-compositor.cpp:4315-4532 | every pending event is dispatched exactly once, in posting order, to its device if it exists, and the queue is empty |
| EventQueue.Queue.Dispatch | westeros-compositor.cpp:4326-4530 | the loop over the slots |
| EventQueue.TouchSetShape | westeros-compositor.cpp:2975-3019 | a touch set gives one event per active point, in slot order and of the right kind, then exactly one frame event, if any point is active |
| EventQueue.ActiveSlotsComplete | westeros-compositor.cpp:2975-3013 | the active points are all found, in ascending order |
| EventQueue.Queue.PostTouch | westeros-compositor.cpp:2963-3025 | posting a touch set appends exactly these events |
| EventQueue.Queue.PostKey | westeros-compositor.cpp:2846-2868 | what will be dispatched is what was posted, whatever the reused slot held before |
| EventQueue.Queue.PostPointerEnter | westeros-compositor.cpp:2870-2892 | the same |
| EventQueue.Queue.PostPointerLeave | westeros-compositor.cpp:2894-2914 | the same |
| EventQueue.Queue.PostPointerMove | westeros-compositor.cpp:2916-2937 | the same, negative coordinates included |
| EventQueue.Queue.PostPointerButton | westeros-compositor.cpp:2939-2961 | the same, with the time left to dispatch |
| EventQueue.SignedKept | westeros-compositor.cpp:2928-2929 | a signed 32 bit value survives the unsigned field |
| EventQueue.TouchKinds | westeros-compositor.cpp:2975-3013 | of the active points of a touch set, in slot order, a starting one goes down, a stopping one up, any other moves, with its own id and place |
| EventQueue.CalledIff | westeros-compositor.cpp:4326-4530 | draining the queue calls exactly the posted events whose device exists |
| FrameCallbacks.AnsweredInOrder | westeros-compositor.cpp:5977-5999 | in every run the callbacks of a surface are answered once each in the order asked for; those left when it dies are dropped once each, and no others |
| FrameCallbacks.OneSurfacePerCallback | westeros-compositor.cpp:5977-5999 | no callback belongs to two surfaces |
| FrameCallbacks.NoneWaitingAfterCompose | westeros-compositor.cpp:4576-4591 | after composing, in whatever order the map lists the surfaces, none is waiting and every one asked for has been answered |
| FrameCallbacks.StepKeepsInv | westeros-compositor.cpp:5655-5662 | every step keeps these accounts |
| FrameCallbacks.CallbackLists.Drain | westeros-compositor.cpp:4583-4590 | the loop that takes callbacks off the front |
| FrameCallbacks.CallbackLists.ComposeFrame | westeros-compositor.cpp:4576-4591 | the loop over all surfaces |
| FrameCallbacks.CallbackLists.DestroySurface | westeros-compositor.cpp:5655-5662 | what waits is dropped in order |
| FrameCallbacks.CallbackLists.Handle | westeros-compositor.cpp:4576-4591 | every handler does exactly what FrameCallbacks.Step says |
| FrameCallbacks.CallbacksAfter | westeros-compositor.cpp:5977-5999 | what every step does to the callbacks of every surface: a request puts one at the end, composing answers all, destroying the surface drops them |
| VirtualCompose.OnlyOwnDrawn | westeros-compositor.cpp:2552-2567 | while the scene is drawn exactly those listed surfaces are visible that are the caller's own and were visible |
| VirtualCompose.TransparentIff | westeros-compositor.cpp:2588-2598 | afterwards every visibility is as before, for any list and ownership, exactly when no visible surface of another compositor is listed twice |
| VirtualCompose.Context.ComposeEmbedded | westeros-compositor.cpp:2552-2598 | the call leaves every visibility unchanged and draws as stated, virtual or not, hidden or not |
| VirtualCompose.Context.HideForeign | westeros-compositor.cpp:2552-2567 | the first loop |
| VirtualCompose.Context.ShowForeign | westeros-compositor.cpp:2588-2598 | the second loop |
| Ancestor.FindsNearest | westeros-compositor.cpp:5128-5206 | the compositor found is the first in list order bound to the nearest of the client's process and its ancestors |
| Ancestor.MasterIff | westeros-compositor.cpp:5128-5206 | the master compositor is returned exactly when none of them, up to process 1 or an unreadable one, is bound |
| Ancestor.GetCompositorFromPid | westeros-compositor.cpp:5128-5206 | the loops end on every process table without circles and compute this |
| Ancestor.FoundInChain | westeros-compositor.cpp:5128-5206 | by the stat files: the first process of the chain of parents that is bound decides, and a chain that ends unbound leads to the master |
## Left out

- EGL, GL, shaders, dispmanx and native pixmaps: texture names are fresh numbers, whether a new image could be made is an input of the step, and texture contents are not modelled.
- Sockets, display connections, threads and locks: every handler is one atomic step; the races between the nested connection's thread and the compositor's are not modelled.
- Allocation failures, among them a host that cannot make a buffer, pool or clone: creation succeeds.
- Seat and SeatHandlers model one compositor that is neither a repeater nor hosts virtual compositors; touch focus and the nested pointer's enter and leave, which take the surface from the host, are not part of them.
- Messages carry the object and the surface only: coordinates, serials, times, pressed keys and modifiers are not in the log, and xkb state is not modelled.
- HitTest uses unbounded integers for positions and sizes, so overflow at the ends of the 32 bit range is not modelled.
- Client infos are a map from clients to surfaces; that at most one of them names a surface is part of the invariant, so the loop that clears the first one found is a filter.
- The null branch of wstKeyboardSetFocus is never called and not modelled.
- SeatHandlers.Compositor.SetCursor: does not model that a client without the right to change the cursor gets its cursor surface hidden, because the seat's state holds nothing of the renderer.
- SeatHandlers.Compositor.ShowCursor: does not model that the renderer raises and shows the cursor surface, for the same reason; the raise is part of Stacking, and OneScene.SceneFollowsLists ties it to the seat's requests.
- Drawn and OneScene take the set of surfaces the renderer draws (visible, and with a picture) as a parameter; how it comes about is not modelled, and translucent surfaces count as seen.
- The end of the default cursor's process, which resets dcDefaultCursor, is not an event of the seat model.
- Stacking does not cover repeater contexts: there set-zorder goes to the host, and the compositor's list keeps its order while the recorded z changes.
- The fast path renderer is an external module and taken to be absent; both renderers' lists are one model, as their code for the list is the same.
- Regions, shell and xdg details, output changes, screen capture, client launching, keymaps and logging: no state that the properties here depend on.
- Buffers: pointer values are names that are never reused, so a new buffer at the address of a destroyed one is a different buffer; the two ways of handing over, with a clone and with a device buffer, are one step, as they keep the same accounts.
- The order in which libwayland calls the destroy listeners is taken to be that of the surface list; no property depends on it.
- Vpc.VpcSurface.Update: does not model the fields and message of the video transform, because they only pass scaled values on, nor the scale for rotated matrices, which needs square roots and is used for nothing else.
- Vpc holds for contexts in which frames are composed for an embedding program: elsewhere the path is never updated, and simple shell geometry requests write the hardware rectangle directly. Nested vpc surfaces are left out; reals stand for floats, so rounding of the products is not modelled, truncation to whole pixels is. That repeater support is present does not change during a run. SetVisible stands for every other writer of the visibility flag.
- Dmabuf: after a rejected create the client is ended by the protocol error, and what destroying its params then does is not modelled. Runs consist of requests with real descriptors, as libwayland delivers no others; Dmabuf.CountKeptIff says what another one would do.
- ShmPool: sizes, offsets and the contents of the memory are left out.
- Textures: which of the many commit functions replaces the image of which slot is an input of the step, as is the number of slots in use.
- Pixels: strides and the copy from the client are not modelled. The loops ignore the stride; the copy before them takes stride times height bytes into memory that is kept from earlier commits while width, height and format stay the same (westeros-render-embedded.cpp:954-972, westeros-render-gl.cpp:909-927), so that it fits is not promised when the stride grows from one commit to a later one. The 16 bit formats are not converted and not modelled. Outside repeater contexts, where these loops run, the shared memory service is libwayland's own with its two formats (westeros-compositor.cpp:4932).
- EventQueue: the events posted by the nested connection and the resolution change events are left out. The asserted bound of the queue is a precondition of posting.
- FrameCallbacks: callbacks destroyed by the end of their client, before their surface, are not modelled.
- Ancestor: the text of the stat files is parsed elsewhere; a table gives the parent, and a table with circles, on which the search would not end, is excluded.

# Verified model of a Wayland compositor's state machine

The compositor keeps a large protocol state machine in memory and answers clients from it: a tree
of surfaces whose commits may be held back and applied together, a clipboard and a drag and drop
that move content between clients, buffers in memory the clients own, and scenes composed for
backends that repaint as little as they can. This project models that machine in Dafny and proves
what it keeps, request by request and over whole runs.

Each part has three layers. A state datatype with one function per request says what the request
does. A class with the program's own fields has one method per handler, with the program's loops,
proved to change those fields as the function says. Lemmas about the functions say what clients can
rely on. Where the program drains a hash map or set, the order is a parameter or the result does not
depend on it. Fields marked as history (what was asked, sent, told, closed) are there only to state
properties and never decide anything.

| file | contents |
|---|---|
| `Base`, `Links` | shared names; partial maps from child to parent, what makes walks up them stop |
| `Surfaces` | pending state, merging it, applying it |
| `Descent` | walks down lists that need not form a tree, and when they end |
| `Forest`, `Cascade` | the surface tree and its walkers; which surfaces one commit reaches, in what order, and what it leaves |
| `Sweep`, `FineSweep` | the queue a commit drains: on any child lists, and on sound ones |
| `SurfaceMachine`, `SurfaceRuns`, `SurfaceTheorems`, `SurfaceCompositor` | requests on surfaces, frame callbacks and buffer releases; the invariant; its consequences; the handlers |
| `CommitTheorems` | what commits leave on the surfaces they reach, field by field, and what a client sees of it |
| `SurfaceWitnesses`, `BufferReuse` | runs in which surfaces do less than promised; buffer ids used again |
| `DataTransfer`, `DataInvariant`, `DataRuns`, `DataTheorems`, `DataCompositor` | clipboard, primary selection, drag and drop, in the same layers |
| `DataDelivery`, `DataDrags`, `DataBounds` | who is offered what; drags from surface to surface to drop; what requests may not touch |
| `Drawing` | the draw walk and the hit test, one the mirror of the other |
| `HitAreas`, `Positions` | where surfaces take input, as point sets; where they are, down the walk and up the links |
| `Repaint`, `FramePacing` | damage between scenes; publications, and a backend that repaints only damage |
| `Geometry`, `PoolLedger`, `ShmCompositor` | buffer bounds; descriptors, pools and mappings |
| `Layer`, `Positioner` | where layer surfaces and popups go |
| `Toplevels` | windows and their dialogs, families, the stack |
| `Configure` | configure serials and acknowledgements |
| `Wire` | the argument codec |

Names, by module and class, are as the table below gives them. A "run" is any list of requests from
any number of clients, starting from nothing; requests the program refuses are in it and change what
the program lets them change. One kind of request is no step of a run: one whose handler never comes
back, which `SurfaceTheorems.CompletesExactly` says exactly when it is, and
`SurfaceTheorems.EveryRequestIsAStep` that every other is.

## Where the code does less than its comments or the protocol say

Each of these is stated exactly: a lemma gives the condition under which the promise holds, and
where a run is needed to show that it fails, a lemma gives the run.

- `wl_subcompositor.get_subsurface` and `xdg_surface.get_popup` do not look whether the surface
  already has a parent, as a layer surface's `get_popup` does. Parent links stay acyclic all the
  same; child lists stay sound exactly when the link is `LinkFits` (`Forest.ListsAfterLink`,
  `SurfaceTheorems.ListsStaySoundExactly`, `SurfaceWitnesses.StaleListWitness`).
- The comment on `apply_surface_state` takes the tree to be kept acyclic. Links are; lists are not.
  A client can link three surfaces so that a commit drains its queue for ever, and drawing and hit
  testing recurse for ever (`SurfaceWitnesses.EndlessWitness`). They end exactly when no way down
  loops (`Descent.HaltsIffNoLoop`, `Descent.BottomsIffNoLoop`, `SurfaceTheorems.CompletesExactly`),
  and always while links are `LinkFits` (`SurfaceTheorems.RespectfulRunsComplete`).
- `register_buffer` means to forget any release still owed to an id, and forgets those begun but not
  those queued: a buffer never attached can be released for another that had its id
  (`BufferReuse.QueuesOwnExactly`, `BufferReuse.ReuseWitness`).
- `SurfacePending::merge` adds offsets without the clamp that applying them one by one would bring in
  between (`Surfaces.MergeOffsetExact`, `Surfaces.MergeOffsetWitness`).
- A drag's source hears exactly one of `cancelled` and `dnd_drop_performed`, unless it was bound
  before version 3 and dropped: then it hears neither (`DataTheorems.DragEndsOnce`,
  `DataTheorems.OldSourceHearsNothing`).
- A primary-selection source has no single-use rule and can be cancelled any number of times
  (`DataTheorems.PrimaryCancelledAgain`).
- `wl_data_offer.accept` on a clipboard offer sends `wl_data_source.target` to whatever source is
  behind the offer, a data-control source included (`DataTheorems.AcceptTells`,
  `DataTheorems.ControlSourceTargeted`).
- `xdg_surface.get_toplevel` checks no role. With two toplevels on one surface, raising the family of
  one moves the other's surface too, and can put a parent over its dialog
  (`Toplevels.SharedSurfaceWitness`, `Toplevels.RaisedPairExactly`, `Toplevels.ApartExactly`).
- A client that opens a toplevel under an id one of its dialogs still names as parent adopts that
  dialog, and may be opened over it (`Toplevels.OpenKeepsExactly`, `Toplevels.OpenWitness`); one that
  destroys an `xdg_surface` under a live toplevel and makes another under its id brings the window
  back wherever its surface is in the stack (`Toplevels.WrapKeepsExactly`, `Toplevels.WrapWitness`).
- A surface with a size but no image is hit and not drawn (`Drawing.HitIsTopmostDrawn`,
  `Drawing.HitMirrorsDrawing`, `Drawing.NoImageWitness`).
- `output_damage` is said never to report less than changed. A texture is told from the one before it
  by id and serial, and a dma-buf drawn into again keeps both: its pixels can then be left as they
  were (`Repaint.EnoughExactly`, `FramePacing.IncrementalIsFull`, `FramePacing.StalePixelWitness`).
- A surface that was a subsurface or popup keeps the offset it had. The walkers that say where a
  surface is add that of the root too; drawing and hit testing do not (`Positions.DrawnWhereSaid`,
  `SurfaceWitnesses.FormerChildWitness`).
- A commit refused for want of an acknowledged configure takes its frame callbacks with it; the
  conservation law counts them as dropped.


## Model

| member | source | states |
|---|---|---|
| Surfaces.MergeActs | src/state/compositor_state.rs:147-176 | Caching two commits and applying the merge gives the buffer, callbacks, feedbacks, regions, scale and transform that applying one after the other gives. |
| Surfaces.MergeAssociates | src/state/compositor_state.rs:147-176 | Folding three commits gives the same pending state however they are grouped (everything but the saturating offset). |
| Surfaces.MergeOffsetExact | src/state/compositor_state.rs:171-174 | The merged offset comes to the same place exactly when, on each axis, no partial sum is cut by a clamp the other way of adding does not meet. |
| Surfaces.MergeOffsetWitness | src/state/compositor_state.rs:3192-3197 | Two commits for which it does not. |
| Surfaces.CacheThenApply | src/protocol/wl_surface.rs:460-570 | Any list of commits cached and applied as one leaves the surface as committing them one by one would, offset included while no partial sum leaves the clamp range. |
| Surfaces.CommitsShow | src/protocol/wl_surface.rs:460-570 | After any commits applied one by one, buffer, input region, opaque region, scale and transform are each what the last commit to set it set, or as before if none did; callbacks and feedbacks are the old and then each commit's in order; nothing else changes. |
| Surfaces.CommitsMove | src/protocol/wl_surface.rs:499-507 | The offset moves by the sum of theirs, while no partial sum leaves the clamp range. |
| Surfaces.HeldCommitsShow | src/state/compositor_state.rs:147-176 | The same fields, by the same account, when the commits are cached and applied as one. |
| Surfaces.HeldDamage | src/state/compositor_state.rs:147-176 | Cached commits keep every rectangle of damage, of either kind, in order. |
| Links.LinkKeepsAcyclic | src/state/compositor_state.rs:1755-1788 | A new parent link that the ancestor check lets through closes no circle. |
| Links.LinkClosesCircle | src/state/compositor_state.rs:1755-1788 | A new parent link that the check refuses would have closed a circle. |
| Links.Bounded | src/state/compositor_state.rs:1770-1788 | A chain of parents that ends does so within as many links as there are, which is why a bound on the walk never decides. |
| Forest.LinksAfterLink | src/protocol/wl_subcompositor.rs:108-122 | Linking a surface sets its parent link and no other, and none if the surface is gone. |
| Forest.LinksAfterDestroy | src/state/compositor_state.rs:2736-2778 | Destroying a surface takes its own link away and leaves every other, dangling ones too. |
| Forest.LinksAfterUnlink | src/protocol/wl_subsurface.rs:33-81 | Destroying a subsurface or popup role takes exactly its surface's link away. |
| Forest.LinksAfterPlace | src/protocol/wl_subsurface.rs:100-158 | Restacking touches no link. |
| Forest.ListsAfterDestroy | src/state/compositor_state.rs:2774-2778 | Every child list stays in step with the links when a surface is destroyed. |
| Forest.ListsAfterUnlink | src/protocol/wl_subsurface.rs:33-81 | Every child list stays in step with the links when a subsurface's role goes. |
| Forest.ListsAfterPlace | src/protocol/wl_subsurface.rs:100-158 | Every child list stays in step when a child is moved among its siblings: the same children, each once. |
| Forest.RestackExactly | src/protocol/wl_subsurface.rs:100-158 | A child restacked stands next to the first place its sibling is listed at, on the side asked for, or at the end on that side if there is no such sibling; the others keep their order. |
| Forest.ListsAfterLink | src/protocol/wl_subcompositor.rs:108-122 | Linking keeps child lists in step exactly when the surface is alive and parentless, and where its parent is alive, childless of it. |
| Forest.LinkedOnTop | src/protocol/wl_subcompositor.rs:108-122 | A new child goes over the children its parent has, a subsurface synchronised and a popup where it was put; no other surface changes. |
| Forest.IsAncestor | src/state/compositor_state.rs:1770-1788 | The loop with its fuel computes the walk. |
| Forest.IsAncestorExact | src/state/compositor_state.rs:1770-1788 | On links without circles the walk answers exactly whether the surface is the candidate or above it: the fuel never decides. |
| Forest.RootOf | src/state/compositor_state.rs:1791-1804 | The fuelled walk to the root reaches it. |
| Forest.RootSurface | src/input.rs:506-518 | The walk with no fuel terminates and reaches the same root. |
| Forest.GlobalPositionOf | src/state/compositor_state.rs:1807-1827 | The fuelled sum of offsets up the tree. |
| Forest.SurfaceGlobalPosition | src/input.rs:1314-1336 | The sum with no fuel terminates and is the same. |
| Cascade.IsEffectivelySynced | src/state/compositor_state.rs:1717-1738 | A subsurface is synchronised if it says so or if the one above it is; the loop is exact. |
| Cascade.SyncedChildren | src/state/compositor_state.rs:1741-1753 | The synchronised children, in the order listed. |
| Cascade.OrderMembers | src/protocol/wl_surface.rs:436-457 | The breadth-first order reaches exactly the start and what hangs from it through synchronised children. |
| Cascade.OrderDistinct | src/protocol/wl_surface.rs:436-457 | The order reaches each of those surfaces once. |
| Cascade.OrderParentFirst | src/protocol/wl_surface.rs:436-457 | The order reaches each surface after the one it hangs from. |
| Cascade.CascadeUnfolds | src/protocol/wl_surface.rs:436-457 | What is reached is the surface and, for each synchronised child, what that reaches. |
| Descent.HaltsIffNoLoop | src/protocol/wl_surface.rs:436-457 | Whatever child lists say, the queue drained from a surface runs dry exactly when no way down its synchronised children comes to a surface twice. |
| Descent.BottomsIffNoLoop | src/input.rs:1210-1268 | Whatever child lists say, a recursion down them ends exactly when no way down comes to a surface twice, and then no deeper than there are surfaces. |
| Cascade.FineEnds | src/protocol/wl_surface.rs:436-457 | On sound child lists every drain and every recursion ends. |
| Sweep.SweepDisplaces | src/protocol/wl_surface.rs:466-476 | Whatever child lists say, a buffer a drain takes off a surface is put with those displaced, however often the drain comes by. |
| Sweep.SweepKeepsLinks | src/protocol/wl_surface.rs:436-457 | A drain touches no link and no child list, so what hangs where is the same at every turn. |
| FineSweep.FineSweeps | src/protocol/wl_surface.rs:436-457 | On sound child lists the drain meets the cascade in its order, applies to each surface in it once what it is due, empties its cache, and leaves every other surface alone. |
| SurfaceCompositor.Compositor.ApplySurfaceState | src/protocol/wl_surface.rs:436-457 | Wherever the queue runs dry the loop drains it, lists sound or not: each turn applies the head and takes the caches of its synchronised children as listed, the second time round nothing. |
| SurfaceCompositor.Compositor.CommitSurface | src/protocol/wl_surface.rs:340-397 | A commit is refused whole, cached by merging, or applied with everything that waits on it. |
| SurfaceCompositor.Compositor.SetSync | src/protocol/wl_subsurface.rs:160-185 | A subsurface made to stand alone is given what was cached, if nothing above holds it back. |
| SurfaceCompositor.Compositor.DestroySubsurface | src/protocol/wl_subsurface.rs:33-81 | The link and role go, and the cached state is applied. |
| SurfaceCompositor.Compositor.GetSubsurface | src/protocol/wl_subcompositor.rs:32-128 | Refused for a second role or a circle, and otherwise linked, stacked on top and synchronised. |
| SurfaceCompositor.Compositor.GetPopup | src/protocol/xdg_surface.rs:109-236 | The popup object made, and its surface linked where that closes no circle. |
| SurfaceCompositor.Compositor.FireFrameCallbacks | src/input.rs:577-698 | The drained callbacks are those of the surfaces covered, every one answered and its id freed, whatever order the map has. |
| SurfaceCompositor.Compositor.StartBufferReleases | src/input.rs:706-717 | Everything queued and on no surface moves on to be released. |
| SurfaceCompositor.Compositor.FinishBufferReleases | src/input.rs:725-768 | Of those, the ones nobody reads and no surface shows are released if they still exist, in whatever order the set has. |
| SurfaceRuns.StepKeepsInv | src/state/compositor_state.rs:1770-1788 | Every request whose handler comes back, child lists sound or not, keeps links acyclic, tables named by objects of their kind, callbacks conserved and owned, and releases earned. |
| SurfaceRuns.EveryRunIsSound | src/state/compositor_state.rs:1770-1788 | Every run from nothing keeps all that, through creation, destruction, id reuse, linking, unlinking and committing by any number of clients, whatever they link under what. |
| SurfaceRuns.SweepCarries | src/protocol/wl_surface.rs:436-457 | Through a drain each surface keeps every callback it had, committed, cached or pending, and only the start gains those applied to it. |
| SurfaceTheorems.FrameAnswersLiveCallbacks | src/input.rs:577-698 | A frame answers each committed callback of a covered surface once, while its id still names that callback, and no two surfaces share one. |
| SurfaceTheorems.CallbacksConserved | src/protocol/wl_surface.rs:183-209 | After any run the callbacks ever asked for on a surface are those answered, those waiting committed, cached or pending, and those lost with a refused commit; each waits once and still names a `wl_callback`. |
| SurfaceTheorems.AncestorsExactInRuns | src/state/compositor_state.rs:1770-1788 | After any run, ids reused and all, the ancestor check is exact. |
| SurfaceTheorems.AnsweredAtMostAsked | src/protocol/wl_surface.rs:183-209 | No callback is answered more often than it was asked for. |
| SurfaceTheorems.ReleaseIsSafe | src/input.rs:725-768 | A release goes only to a buffer that exists, is a live `wl_buffer` id, is on no surface and has no reader. |
| SurfaceTheorems.ReleasesSeparated | src/input.rs:706-768 | Between two releases of one buffer a commit replaced it. |
| SurfaceTheorems.ReleasesSeparatedInRuns | src/input.rs:706-768 | After any run, between two releases of one buffer a commit replaced it. |
| SurfaceTheorems.QueuedIsReleased | src/run.rs:693-695 | A queued buffer with no reader and on no surface is released by the next start-then-finish. |
| SurfaceTheorems.ReadStaysQueued | src/input.rs:725-768 | A queued buffer that is being read stays queued across a tick. |
| SurfaceTheorems.QueuedUntilReleased | src/input.rs:706-768 | A loose queued buffer leaves the queue only released, destroyed, or with its client. |
| SurfaceTheorems.LooseIsReleasedOrWaiting | src/input.rs:706-768 | Over any run that leaves it loose, it is released at some tick or still waiting at the end. |
| SurfaceTheorems.CommitQueuesDisplaced | src/protocol/wl_surface.rs:466-476 | Whatever child lists say, a buffer a commit takes off any surface is queued for release. |
| SurfaceTheorems.ListsStaySoundExactly | src/protocol/xdg_surface.rs:109-236 | Sound child lists stay sound through a request exactly when any link it makes is respected. |
| SurfaceTheorems.RespectfulRunsStayFine | src/protocol/wl_subcompositor.rs:108-122 | Over a run whose every link is respected the forest can always be walked downwards, as commits and drawing do. |
| SurfaceTheorems.CompletesExactly | src/protocol/wl_surface.rs:436-457 | In any reachable state a commit, a `set_desync` or a subsurface's destruction comes back exactly when it drains nothing or no way down from where it starts draining comes to a surface twice; every other request always does. |
| SurfaceTheorems.EveryRequestIsAStep | src/run.rs:693-695 | Every request that comes back is a step some run can take: runs leave out nothing else. |
| SurfaceTheorems.RespectfulRunsComplete | src/protocol/wl_subcompositor.rs:108-122 | After a run whose every link is respected every request of every client comes back, and drawing and hit testing end. |
| CommitTheorems.HeldNext | src/protocol/wl_surface.rs:340-397 | A synchronised commit is held behind those held already, and nothing of it shows. |
| CommitTheorems.RefusedWhole | src/protocol/wl_surface.rs:340-397 | Content committed before a configure is acknowledged is refused, everything pending with it. |
| CommitTheorems.CommitReaches | src/protocol/wl_surface.rs:436-457 | A commit that applies shows what was pending there, and on each surface synchronised with it all the way down every field as the last commit held there to set it set it; no other surface changes. |
| CommitTheorems.FreedShows | src/protocol/wl_subsurface.rs:160-185 | A subsurface set free, with nothing above it synchronised, shows at once all it held, and what is synchronised with it the same. |
| CommitTheorems.PositionedExactly | src/protocol/wl_subsurface.rs:83-98 | A position in range is taken at once, by that surface alone. |
| CommitTheorems.LeavesExactly | src/state/compositor_state.rs:3000-3124 | A client's surfaces, objects and buffers go with it, queued releases too, and nobody else's change. |
| CommitTheorems.FrameAsks | src/protocol/wl_surface.rs:183-209 | A callback asked for waits for the next commit, under its id. |
| CommitTheorems.PresentedExactly | src/input.rs:577-698 | A frame presented on an output takes the committed callbacks of exactly the surfaces visible on it. |
| CommitTheorems.OffscreenExactly | src/input.rs:577-698 | And the off-screen pass those of exactly the surfaces visible nowhere. |
| CommitTheorems.PresentedAsAsked | src/protocol/wl_surface.rs:340-397 | Attaching, asking for a frame, committing and being presented shows the buffer attached and answers the callback, on any surface on that output with sound lists and nothing synchronised above it. |
| SurfaceWitnesses.StaleListWitness | src/protocol/wl_subcompositor.rs:108-122 | A run of five requests, none refused, after which a surface given a second parent is still listed by its first. |
| SurfaceWitnesses.EndlessWitness | src/protocol/wl_surface.rs:436-457 | A run of six requests, none refused, after which a commit never comes back and drawing and hit testing never end, though parent links form no circle. |
| SurfaceWitnesses.FormerChildWitness | src/protocol/wl_subsurface.rs:33-81 | A run of five requests, none refused, after which a surface with no parent still has the offset it had as a subsurface. |
| BufferReuse.ReleaseNames | src/input.rs:725-768 | A release answers the last commit to displace its id, and names the buffer that commit displaced exactly when none has been made under the id since. |
| BufferReuse.QueuesOwnExactly | src/state/compositor_state.rs:1555-1595 | Ids queued for release go on naming the buffers displaced, except exactly when a buffer is made under an id displaced since the last tick. |
| BufferReuse.CarefulRunsReleaseOwn | src/state/compositor_state.rs:1555-1595 | Over a run that makes no buffer so, every release names the very buffer a commit displaced. |
| BufferReuse.ReuseWitness | src/state/compositor_state.rs:1555-1595 | A run in which a buffer that was never attached is released, for one displaced under its id after being destroyed. |
| DataTransfer.ResolvedIsFair | src/state/compositor_state.rs:3140-3172 | What a drag settles on is nothing, exactly when the two sides agree on nothing, or a single action both allow. |
| DataTransfer.PreferenceWins | src/state/compositor_state.rs:3163-3165 | The target's preference wins wherever the source allows it. |
| DataTransfer.FirstAvailableWins | src/state/compositor_state.rs:3140-3172 | Where the preference is not available the first of copy, move and ask that is wins. |
| DataCompositor.Compositor.SendToDevices | src/protocol/zwlr_data_control_device.rs:231-255 | One offer per device that may hear of the selection. |
| DataCompositor.Compositor.Announce | src/state/compositor_state.rs:2166-2171 | The focused client's devices and every data-control device are handed the clipboard. |
| DataCompositor.Compositor.AnnounceToPrimary | src/state/compositor_state.rs:2245-2250 | The focused client's devices are handed the primary selection, and data-control devices from version 2 on. |
| DataCompositor.Compositor.InvalidateOffersFrom | src/state/compositor_state.rs:2180-2187 | Exactly the offers drawing from a source go dead, and no other changes. |
| DataCompositor.Compositor.PutOnSelection | src/state/compositor_state.rs:2139-2148 | The displaced source cancelled, its offers dead, the new one announced. |
| DataCompositor.Compositor.PutOnPrimary | src/state/compositor_state.rs:2220-2229 | On the primary selection too: the displaced source cancelled, its offers dead, the new one announced. |
| DataCompositor.Compositor.RetireSource | src/state/compositor_state.rs:2193-2212 | A source taken out of the slot it was in, its offers dead, and out of the table. |
| DataCompositor.Compositor.HandleSetSelection | src/protocol/wl_data_device.rs:188-215 | The clipboard set by a client with a recent serial. |
| DataCompositor.Compositor.HandleSetPrimary | src/protocol/zwp_primary_selection_device.rs:44-86 | The primary selection set, with no single-use rule. |
| DataCompositor.Compositor.HandleControlSet | src/protocol/zwlr_data_control_device.rs:82-140 | Either selection set with neither serial nor focus, once per source. |
| DataCompositor.Compositor.CancelTheDrag | src/state/compositor_state.rs:2280-2296 | The drag gone, its offers dead, its source cancelled. |
| DataCompositor.Compositor.LeaveFocus | src/state/compositor_state.rs:2800-2822 | The offers of the surface left go dead, after their source is told it has no target. |
| DataCompositor.Compositor.EnterSurface | src/input.rs:950-990 | One offer per device of the client entered, each then settled. |
| DataCompositor.Compositor.PointerMoved | src/input.rs:903-942 | A drag enters and leaves surfaces as the pointer does; with no source it goes only to its own client. |
| DataCompositor.Compositor.TargetAccepts | src/state/compositor_state.rs:2372-2380 | Whether some offer of the drag has a mime type accepted and an action settled. |
| DataCompositor.Compositor.EndDrag | src/input.rs:1001-1051 | Letting go over nothing, over a target that will take nothing, and over one that will. |
| DataCompositor.Compositor.ResolveDragActions | src/state/compositor_state.rs:2355-2365 | Every offer with a source settled, in whatever order. |
| DataCompositor.Compositor.HandleSourceSetActions | src/protocol/wl_data_source.rs:79-109 | The source's mask set and every drag offer settled again. |
| DataCompositor.Compositor.HandleGetDevice | src/protocol/wl_data_device_manager.rs:86-136 | A device bound, and handed at once what it would otherwise only hear of later. |
| DataCompositor.Compositor.SwitchFocus | src/input.rs:1097-1128 | A client that gains focus is handed both selections. |
| DataCompositor.Compositor.DestroySurface | src/state/compositor_state.rs:2780-2797 | A drag ends with its origin, loses its icon with that, and leaves its focus with that. |
| DataCompositor.Compositor.RemoveClient | src/state/compositor_state.rs:3061-3117 | A client leaving takes its drag, its slots, its sources and its offers with it, and everyone's offers from its sources go dead. |
| DataInvariant.AddOfferKeeps | src/protocol/wl_data_device.rs:236-274 | Handing out a selection keeps the whole invariant. |
| DataInvariant.ReplaceKeeps | src/state/compositor_state.rs:2139-2148 | Replacing the clipboard keeps the whole invariant. |
| DataInvariant.ReplacePrimaryKeeps | src/state/compositor_state.rs:2220-2229 | Replacing the primary selection keeps the whole invariant. |
| DataInvariant.ClaimKeeps | src/protocol/wl_data_device.rs:57-91 | Claiming an unused source keeps it; the source had no slot and was not cancelled. |
| DataInvariant.CancelDragKeeps | src/state/compositor_state.rs:2280-2296 | Cancelling a drag keeps the whole invariant. |
| DataInvariant.EndFocusKeeps | src/state/compositor_state.rs:2800-2822 | A drag leaving a surface keeps it. |
| DataInvariant.EnterDragKeeps | src/input.rs:950-990 | A drag entering a surface keeps it, its new offers settled. |
| DataInvariant.FinishDragCases | src/input.rs:1001-1051 | Letting go is nothing more, cancelling, or dropping, and which of them only the target's acceptance decides. |
| DataInvariant.FinishDragInv | src/input.rs:1001-1051 | Letting go keeps it, whichever way the drag ends. |
| DataRuns.StepKeepsInv | src/state/compositor_state.rs:2193-2212 | After every request: slots name live sources of the right interface, never the same one twice; an offer's source is live and still readable through it; a drag's offers belong to its focus client and carry its source; every offer is settled on what both sides say now; a drag and a grab are never both held; no source hears two outcomes; no id is given out twice. |
| DataRuns.EveryRunIsSound | src/state/compositor_state.rs:3061-3102 | All of that holds after every run of clients connecting, offering, dragging, destroying and leaving. |
| DataRuns.DestroySourceInv | src/state/compositor_state.rs:2193-2212 | A source destroyed mid-selection or mid-drag leaves nothing naming it. |
| DataRuns.DisconnectInv | src/state/compositor_state.rs:3061-3102 | A client that leaves mid-selection or mid-drag leaves nothing naming its sources or offers. |
| DataTheorems.UsedUpForGood | src/protocol/wl_data_device.rs:57-91 | A clipboard or drag source that has left its slot never holds one again, over any run. |
| DataTheorems.OneOutcome | src/protocol/mod.rs:146-158 | Over any run a source of these two interfaces is cancelled or dropped once at most, and finished only if dropped. |
| DataTheorems.PrimaryCancelledAgain | src/protocol/zwp_primary_selection_device.rs:44-86 | A primary source set again is cancelled again, however often. |
| DataTheorems.DragEndsOnce | src/input.rs:1001-1051 | A drag goes on unless let go, escaped, or bereft of source, origin or client; ending, its source hears exactly one of dropped and cancelled, a source too old to hear of a drop being the one exception. |
| DataTheorems.OldSourceHearsNothing | src/input.rs:1001-1051 | A run in which a source bound before version 3 is dropped on a target that takes it and hears nothing. |
| DataTheorems.AgreedIsFair | src/state/compositor_state.rs:2319-2349 | Whatever any offer is settled on, in any sound state, is nothing or one action both sides allow. |
| DataTheorems.DropIsAgreed | src/state/compositor_state.rs:2372-2380 | Any request that tells a source of a drop ends a drag over a target that accepted, with an action both sides allow. |
| DataTheorems.NoStalePaste | src/protocol/wl_data_offer.rs:91-125 | Content is asked only of the owner of a current selection, of the drag over the reader's surface, or of what was dropped there. |
| DataTheorems.AcceptTells | src/protocol/wl_data_offer.rs:59-82 | Accepting tells the source behind the offer; that source has no such event exactly when the offer is of the clipboard and a data-control source holds it. |
| DataTheorems.ControlSourceTargeted | src/protocol/wl_data_source.rs:116-121 | A run in which a data-control source is sent `wl_data_source.target`. |
| DataDelivery.DevicesListedInRuns | src/protocol/wl_data_device.rs:393-400 | After any run the device lists hold exactly the device objects of each interface, once each. |
| DataDelivery.StepKeepsListed | src/protocol/wl_data_device.rs:393-400 | Every request keeps them so. |
| DataDelivery.SelectionsExactly | src/state/compositor_state.rs:2139-2148 | For every request, what it makes of each selection: set, cleared, taken away with its source, or untouched. |
| DataDelivery.ClipboardReaches | src/state/compositor_state.rs:2166-2171 | A source put on the clipboard is offered once, in order of ids and while ids last, on each data device of the client with focus and each data-control device, as an object of that interface and version; no other client is handed anything. |
| DataDelivery.PrimaryReaches | src/state/compositor_state.rs:2245-2250 | The same of the primary selection, and of data-control devices only those of version 2. |
| DataDelivery.FocusReaches | src/input.rs:1097-1128 | A client that gains focus is handed both selections, one offer on each device it has for them while ids last, and nobody else any. |
| DataDelivery.FocusMoves | src/input.rs:1097-1128 | Focus is then where it was put. |
| DataDrags.SurfaceLost | src/state/compositor_state.rs:2736-2778 | A surface destroyed takes focus away exactly if it had it. |
| DataDrags.ClientLost | src/state/compositor_state.rs:3000-3124 | And a client gone exactly if one of its surfaces had it. |
| DataDelivery.DeviceReaches | src/protocol/wl_data_device_manager.rs:86-136 | A device bound is handed what its interface and version may hear of and its client's focus allows, at once, and no other client anything. |
| DataDelivery.OthersOfferNothing | src/state/compositor_state.rs:2134-2256 | No request but these and a moving drag makes any offer. |
| DataDelivery.OwedCount | src/protocol/wl_data_device.rs:281-291 | What a list of devices is owed is one offer for each of the client's devices in it that is new enough. |
| DataDrags.PointerReaches | src/input.rs:903-942 | A drag is over whatever surface the pointer is, or with no source only its own client's. When that changes the old offers go dead and the client there is made a drag offer of the source on each data device while ids last; when it does not, nothing changes. |
| DataDrags.DropGoesThrough | src/input.rs:1001-1051 | A target that accepts, names an action the source allows, takes the drop, reads and finishes has the source hear of the target, the drop, the read and the end, once each in that order. |
| DataDrags.ReceiveExactly | src/protocol/wl_data_offer.rs:91-125 | A read is passed on exactly when the offer has a source and that source offered the type; otherwise nothing happens. |
| DataDrags.OfferedIsServed | src/protocol/wl_data_source.rs:47-65 | A type just offered is served through every offer of the source. |
| DataDrags.SourceSaysAtOnce | src/protocol/wl_data_source.rs:79-109 | A source's new actions count at once in every drag offer of it. |
| DataBounds.ReplacedExactly | src/state/compositor_state.rs:2139-2148 | Replacing the clipboard cancels exactly the source that held it and kills exactly its offers; every other source and offer is as it was. |
| DataBounds.PrimaryReplacedExactly | src/state/compositor_state.rs:2220-2229 | And replacing the primary selection. |
| DataBounds.DestroyedExactly | src/state/compositor_state.rs:2193-2212 | A source destroyed takes its offers and its drag with it, and touches no other source, offer or drag. |
| DataBounds.ClientGoneExactly | src/state/compositor_state.rs:3000-3124 | A client gone takes its objects, sources and offers; of everyone else's, exactly the offers of its sources are dead, and a drag it had no part in goes on. |
| Drawing.PushSurfaceTree | src/scene.rs:386-416 | Wherever no way down the lists loops, sound or not, the recursion pushes what has an image, each surface before its children, those back to front, and passes over listed surfaces that are gone. |
| Drawing.BuildScene | src/scene.rs:199-243 | An output's lower layers, windows and upper layers, in that order and in its own coordinates. |
| Drawing.WalkBelow | src/scene.rs:386-416 | On sound lists a tree's walk visits only live surfaces that hang from its root. |
| Drawing.WalkOnce | src/scene.rs:386-416 | On sound lists a tree's walk visits no surface twice. |
| Drawing.RegionContainsPoint | src/state/compositor_state.rs:3181-3189 | The last rectangle to cover a point decides, as replaying them all does. |
| Drawing.HitTreeIsTopmost | src/input.rs:1210-1268 | Wherever no way down loops, looking children first, front to back, finds the last surface of the walk to accept the point. |
| Drawing.TopmostIsLast | src/input.rs:1178-1206 | What is found accepts the point and nothing drawn after it does; nothing is found when nothing accepts. |
| Drawing.HitTestIsTopmost | src/input.rs:1136-1206 | Trying every output band by band finds the last surface walked on the one output with anything under the point. |
| Drawing.SceneIsWalked | src/scene.rs:199-243 | An output's scene is that walk less what has no image, at the same offsets once its origin is added back. |
| Drawing.HitIsTopmostDrawn | src/input.rs:1178-1268 | Wherever no way down loops, hit testing returns the topmost drawn surface that contains the point and takes input, exactly unless the last one walked that does so has no image to draw. |
| Drawing.HitMirrorsDrawing | src/input.rs:1178-1268 | Where every surface walked that has a size has an image, hit testing mirrors drawing at every point. |
| Drawing.NoImageWitness | src/input.rs:1178-1268 | A desktop on which a window with a size and no image is hit where nothing is drawn. |
| HitAreas.AcceptsExactly | src/input.rs:1240-1265 | A surface takes input at a point exactly when the point, from the surface's corner, is in its rectangle and in the set its region's rectangles build, added and taken away in order. |
| HitAreas.HitTreeExactly | src/input.rs:1210-1268 | A point hits the last surface of the walk whose input area holds it, and none exactly when none does. |
| HitAreas.HitTestExactly | src/input.rs:1178-1206 | The same of a whole desktop, where one output has anything under the point. |
| HitAreas.AloneExactly | src/input.rs:1210-1268 | A surface with none below it is hit at exactly its input area, moved to where it is. |
| HitAreas.HitMoves | src/input.rs:1210-1268 | A tree and a point moved alike: the hit is the same, moved as far. |
| Positions.TreePlaces | src/scene.rs:386-416 | A walk puts each surface at its root's place plus the offsets on the way up its parent links. |
| Positions.DrawnWhereSaid | src/state/compositor_state.rs:1807-1827 | That is where the walkers say it is, but for the offset a root may keep from a parent it had, which only the walkers add: the two agree exactly when that is zero. |
| Repaint.BoundsCover | src/scene.rs:361-373 | The rounded rectangle takes in every pixel a quad overlaps. |
| Repaint.BoundsAreTight | src/scene.rs:361-373 | The rounded rectangle reaches less than a pixel further than the quad on any side. |
| Repaint.OutputDamage | src/scene.rs:277-303 | The loop reports, for each slot that changed, what was there and what is. |
| Repaint.SameElementExactly | src/scene.rs:309-316 | Two elements are taken to be the same exactly when they are, groups excepted, or differ in nothing but what a texture of one id and serial holds. |
| Repaint.DamageExactly | src/scene.rs:277-303 | A pixel is damaged exactly when a slot covers it, before or after, that is not the very same element, groups never being the same and textures told apart by id and serial alone. |
| Repaint.DamageCoversDifference | src/scene.rs:267-276 | Every pixel two scenes differ in, however elements paint within their quads, is damaged, or shows a texture redrawn under the id and serial it had. |
| Repaint.EnoughExactly | src/scene.rs:267-276 | The damage is enough at a pixel, whatever way of painting, exactly when it takes the pixel in or no texture there was so redrawn. |
| FramePacing.FramePacer.Publish | src/run.rs:116-178 | Every output both stale and asking is composed once, its damage reckoned from its last scene, and all scenes published. |
| FramePacing.StepKeepsInv | src/run.rs:116-178 | Whatever is published, drawn, skipped or lost, a screen shows the whole of the scene it last drew, while no texture is redrawn under one serial. |
| FramePacing.IncrementalIsFull | src/run.rs:116-178 | After any run, drawing only the damage where it may leaves exactly what painting the whole newest scene would, while no texture is redrawn between a scene and the next under one serial. |
| FramePacing.StalePixelWitness | src/state/compositor_state.rs:2612-2638 | A run of seven steps after which a texture redrawn under one serial is drawn as it was. |
| FramePacing.ComposedFromLast | src/run.rs:116-178 | Each scene composed is a change to the last of its output, and whole only when there is none. |
| FramePacing.SerialsNeverRepeat | src/run.rs:52-54 | What a serial names never changes. |
| FramePacing.AskingIsServed | src/run.rs:116-178 | No output is left both asking and out of date, and what is published is what should show. |
| FramePacing.AskingIsKept | src/run.rs:90-92 | Asking for a scene ends only with a publication that has what the output should show, exactly when the output was out of date, or with the output. |
| FramePacing.AskedUntilAnswered | src/run.rs:90-92 | Over any run an output that has asked is still waiting or was answered so on the way. |
| FramePacing.BackAfresh | src/run.rs:103-108 | Over any run after an output has gone, no scene made for it is a change to one from before: if it comes back its first scene is whole. |
| Geometry.GeometryExact | src/protocol/wl_shm_pool.rs:46-97 | A buffer is accepted exactly when it is a rectangle of an advertised format whose every byte of every pixel lies in the pool and whose rows do not overlap; the arithmetic stays in `i64`. |
| Geometry.PixelsApart | src/protocol/wl_shm_pool.rs:46-97 | No two pixels of an accepted buffer share a byte. |
| Geometry.RendererAgrees | src/scene.rs:575-595 | The renderer's recheck accepts exactly what the check would against the same size. |
| ShmCompositor.Compositor.DestroyShmPool | src/state/compositor_state.rs:1532-1537 | A pool is kept dead only while buffers name it. |
| ShmCompositor.Compositor.TryCleanupPool | src/state/compositor_state.rs:2691-2707 | A dead pool no buffer names is removed and its descriptor closed; any other is left. |
| ShmCompositor.Compositor.HandleDestroyBuffer | src/state/compositor_state.rs:1597-1618 | The last buffer of a dead pool takes the pool with it. |
| ShmCompositor.Compositor.RemoveClient | src/state/compositor_state.rs:3000-3022 | Buffers first, so that every pool of the client goes with it. |
| PoolLedger.StepKeepsInv | src/state/compositor_state.rs:1483-1618 | Every request keeps the descriptors in one place each, dead pools in use, and buffers inside their mappings. |
| PoolLedger.DisconnectLeaves | src/state/compositor_state.rs:3000-3022 | A client that leaves takes all its pools, buffers and mappings, and nobody else's. |
| PoolLedger.DescriptorsAccounted | src/state/compositor_state.rs:1483-1537 | After any run each descriptor received waits in one queue, is held by one pool, or has been closed once. |
| PoolLedger.DeadPoolsAreUsed | src/state/compositor_state.rs:2691-2707 | A dead pool always has a buffer naming it, a live one its object, and a gone client none. |
| PoolLedger.RendererNeverRefuses | src/scene.rs:575-595 | After any run every buffer with a mapping lies inside it, so the renderer never refuses it. |
| PoolLedger.MappingIsKept | src/state/compositor_state.rs:1541-1552 | No request changes the mapping a living buffer is read through: not growing its pool, not reusing its pool's id. |
| PoolLedger.BufferIsMade | src/protocol/wl_shm_pool.rs:108-171 | From a descriptor sent, a pool that holds it, and a buffer in it exactly when its geometry fits, read through that pool's mapping. |
| PoolLedger.PoolIsLetGo | src/state/compositor_state.rs:1532-1537 | A pool destroyed is kept for its last buffer, and its descriptor closed when that goes. |
| Layer.Arrange | src/layer.rs:169-208 | The loop places each surface in what those before it left, or in the whole output. |
| Layer.AreaIsInset | src/layer.rs:37-73 | What is left is the output less the sum reserved on each edge, and nothing where they meet. |
| Layer.UsableAnyOrder | src/layer.rs:169-208 | However the surfaces are ordered, windows are left the same room. |
| Layer.PlacedByEarlier | src/layer.rs:169-208 | A surface's place depends on itself and on the ones before it, in whatever order those are. |
| Layer.UsableIsOnOutput | src/layer.rs:37-73 | What is left for windows lies within the output, point for point. |
| Layer.PlacedInside | src/layer.rs:112-167 | What fits its area with its margins is placed inside it. |
| Layer.PlacedInMiddle | src/layer.rs:112-167 | On an axis it is not against one end of, a surface is centred to within a pixel. |
| Layer.PlacedAlong | src/layer.rs:112-165 | On each axis: against the end it is anchored to less its margin, as long as it asks; one that asks for nothing fills what two anchored ends leave, and has no length otherwise. |
| Layer.BarsAreClear | src/layer.rs:169-208 | A bar no deeper than its zone is clear of every later surface that has no negative zone and fits the room it is given. |
| Layer.BarsClearWindows | src/layer.rs:169-208 | Every bar no deeper than its zone, the last too, is clear of the room left for windows. |
| Layer.OrderedForOutput | src/layer.rs:238-250 | The surfaces sorted by band and id, the same ones. |
| Layer.OrderIsUnique | src/layer.rs:238-250 | Two sorted lists of the same surfaces are the same list, so the map's order never shows. |
| Layer.BandsSplitOrder | src/layer.rs:253-263 | What is under the windows and what is over them are the two ends of the one order. |
| Positioner.Place | src/protocol/xdg_positioner.rs:213-263 | The two axes, adjusted in turns, come out as if each were settled alone. |
| Positioner.FittingIsLeft | src/protocol/xdg_positioner.rs:213-263 | A popup that fits is not moved. |
| Positioner.SlideAndResizeFit | src/protocol/xdg_positioner.rs:213-263 | Free to slide and be resized it ends up in view exactly when there is a pixel of room. |
| Positioner.SlideFits | src/protocol/xdg_positioner.rs:325-330 | Free only to slide, a popup ends up in view exactly when it is no larger than the room. |
| Positioner.SlideIsNearest | src/protocol/xdg_positioner.rs:325-330 | Sliding moves a popup no further than any other way of bringing it into view. |
| Positioner.ResizeKeepsVisible | src/protocol/xdg_positioner.rs:333-337 | A popup cut down keeps every pixel of it that was in view. |
| Positioner.FlipReflects | src/protocol/xdg_positioner.rs:339-350 | While no sum saturates flipping is a reflection in the middle of the anchor rectangle, exactly but for the offset, which is not reflected, and the pixel an odd length or size leaves over. |
| Positioner.HangsOffAnchor | src/protocol/xdg_positioner.rs:266-317 | Across and down alike, flipped or not, the edge or middle its gravity names is at the point of the anchor rectangle its anchor names, moved by the offset. |
| Positioner.FlipsIfItHelps | src/protocol/xdg_positioner.rs:213-263 | A flip is made exactly when it is allowed, the popup does not fit as it is and would fit flipped; with nothing allowed it is left alone. |
| Toplevels.WouldCycle | src/protocol/xdg_toplevel.rs:117-137 | The counted walk says exactly whether the link would close a circle. |
| Toplevels.RefusedWouldCircle | src/protocol/xdg_toplevel.rs:87-114 | A parent that is refused would have closed a circle. |
| Toplevels.ToplevelFamily | src/state/compositor_state.rs:1851-1901 | The whole family of any member once each, parents before children, whatever order the map has. |
| Toplevels.OneFamily | src/state/compositor_state.rs:1851-1873 | Every member names the same family. |
| Toplevels.RaiseAllOrder | src/state/compositor_state.rs:1837-1844 | Raised one after another, one perhaps twice, windows end up over all the rest and among themselves in the order each was last raised. |
| Toplevels.Desktop.RaiseWithChildren | src/state/compositor_state.rs:1837-1844 | The family raised in its order. |
| Toplevels.Desktop.HandleSetParent | src/protocol/xdg_toplevel.rs:87-114 | A usable parent set and the family raised, or nothing. |
| Toplevels.RaiseKeeps | src/state/compositor_state.rs:1837-1844 | Where no two toplevels share a surface, after a raise every dialog of the family is over its parent, and any other dialog is over its parent exactly if it was. |
| Toplevels.RaisedPairExactly | src/state/compositor_state.rs:1837-1844 | Whatever surfaces toplevels share, a raise leaves a dialog over its parent exactly when its surface is raised once more after the parent's last, or neither is raised and it was. |
| Toplevels.ApartExactly | src/state/compositor_state.rs:2857-2885 | Toplevels come to share a surface exactly when one is opened on a surface another shows, or an `xdg_surface` is made that gives one a surface another shows. |
| Toplevels.WrapKeepsExactly | src/state/compositor_state.rs:2838-2851 | An `xdg_surface` made under an id toplevels still name keeps dialogs over parents exactly when the surface it wraps, if the stack still has it, is over every such window's parent and under every such window's dialogs. |
| Toplevels.OpenKeepsExactly | src/state/compositor_state.rs:2857-2885 | Opening a window under an id dialogs still name, on a surface no other shows, keeps dialogs over parents exactly when it goes in under them. |
| Toplevels.StepKeeps | src/protocol/xdg_toplevel.rs:87-137 | An act that makes no two toplevels share a surface keeps every dialog over its parent exactly when it is tidy: a window opened goes in under the dialogs that name it, and a surface wrapped again is where the windows it comes back to belong. |
| Toplevels.OrderlyRunsKeepDialogsUp | src/protocol/xdg_toplevel.rs:87-137 | Over a run of such acts every dialog stays over its parent. |
| Toplevels.EveryRunIsForest | src/protocol/xdg_toplevel.rs:117-137 | Over any run at all, surfaces shared and wrappers destroyed under live toplevels included, parents stay a forest. |
| Toplevels.SharedSurfaceWitness | src/protocol/xdg_surface.rs:56-107 | A run after which raising a second toplevel on a parent's surface puts the parent over its dialog. |
| Toplevels.OpenWitness | src/state/compositor_state.rs:2857-2885 | A run after which a window opened under an id a dialog still names, on a surface of its own, is put over that dialog. |
| Toplevels.WrapWitness | src/state/compositor_state.rs:2838-2851 | A run after which a dialog given its surface back by a new `xdg_surface` under the old id is under its parent. |
| Configure.Desk.SendConfigure | src/state/compositor_state.rs:1670-1679 | A configure sent is recorded, the oldest forgotten past 256. |
| Configure.Desk.HandleAckConfigure | src/protocol/xdg_surface.rs:255-305 | An acknowledgement refused, in effect, or stale. |
| Configure.Desk.CheckConfiguredBeforeBuffer | src/protocol/xdg_surface.rs:318-353 | The layer surface decides if there is one, and otherwise whichever wrapper is found. |
| Configure.PendingIsNewest | src/state/compositor_state.rs:1670-1679 | After any run what is pending is the newest at most 256 serials sent after the newest effective acknowledgement; on a layer surface all of them. |
| Configure.SentIsSent | src/state/compositor_state.rs:1670-1679 | After any run the serials a window was sent are those of the configures the run sent it, as counted off the run. |
| Configure.RefusedExactly | src/protocol/xdg_surface.rs:270-282 | An acknowledgement is refused exactly when it is not zero and above everything sent. |
| Configure.EffectiveExactly | src/protocol/xdg_surface.rs:284-295 | It takes effect exactly when its serial was sent to this window, after the newest one in effect, and is not forgotten. |
| Configure.AnswersOnlyItsOwn | src/protocol/xdg_surface.rs:284-305 | Nothing but an acknowledgement of one of its own serials moves a window on. |
| Configure.ContentNeedsAck | src/protocol/xdg_surface.rs:318-353 | A surface with one wrapper may show content exactly when that wrapper has acknowledged a configure really sent to it. |
| Configure.LayerNeedsAck | src/protocol/zwlr_layer_surface.rs:251-282 | A layer surface may show content exactly when it has acknowledged a configure really sent to it. |
| Wire.ArgWriter.String | src/protocol/wire_utils.rs:88-102 | Length, bytes, terminator and padding. |
| Wire.ArgReader.String | src/protocol/wire_utils.rs:39-43 | The text read and the cursor past its padding, or neither. |
| Wire.ArgReader.StringOrNull | src/protocol/wire_utils.rs:50-54 | A null string told from an empty one. |
| Wire.RoundTrip | src/protocol/wire_utils.rs:13-181 | Any list of arguments is read back exactly, consuming every byte. |
| Wire.RoundTripAt | src/protocol/wire_utils.rs:13-181 | Arguments are read back exactly wherever they stand in a buffer. |
| Wire.WholeWords | src/protocol/wire_utils.rs:88-102 | What is written is a whole number of words. |
| Wire.TextThenZeros | src/protocol/wire_utils.rs:88-102 | A string goes as its length with terminator, its bytes, and then zeros only, at least one, to a whole word. |
| Wire.LeastByteFirst | src/protocol/wire_utils.rs:76-79 | A word goes least byte first. |
| Wire.BitsAreComplement | src/protocol/wire_utils.rs:82-85 | A signed number goes as its two's complement, and back. |
| Wire.PrefixesFail | src/protocol/wire_utils.rs:144-181 | A message cut short anywhere fails to decode. |
| Wire.NoTwoAlike | src/protocol/wire_utils.rs:13-181 | Two messages of one signature differ in their bytes. |
| Wire.NullReadsAsEmpty | src/protocol/wire_utils.rs:159-181 | A null string reads as an empty one where a string is expected, and as null only where it may be. |

## Left out

- Channels, sockets, GPU work, cursor themes, keymaps, opcode tables, registry binding and the shell's policy: a send is an entry in a history or nothing at all, a mapping is a size, and the shell is a stack.
- Malformed requests and the errors they end a connection with: a refused request changes nothing.
- Regions, scales, transforms, viewports and damage set on a surface are part of what `Merge` and `Apply` carry; the requests that set them, and the mapping of damage into buffers, are not requests of the surface machine.
- Presentation feedbacks are carried with commits; answering them is left out.
- Whether a surface has another role, whether its configure gate is open, where a positioner puts a popup, whether a button is held and whether a serial is recent are parameters of the requests they decide; `Configure` and `Positioner` model two of them on their own.
- `wl_pointer`, `wl_keyboard`, `wl_touch`, cursors, interactive moves and resizes, except that one of the last excludes a drag.
- Drag events with no bearing on sources and offers (`enter`, `motion`, `leave`, `drop`, the `action` echoes) are not in the log.
- Importing dma-bufs, and buffers composed into presented groups; to `Repaint` a dma-buf is a texture whose pixels change under one serial.
- `SurfaceMachine` runs the two halves of a buffer release together, as the event loop does; between them a replacement could be released twice.
- What becomes of the program once a handler never comes back.
- The shell keeps one stack here and may put a new window anywhere in it or nowhere; moving windows between outputs, and placing one that waited for an output, are left out.
- Releases of buffers superseded inside a cache, or on a surface that is destroyed: the program queues none.
- Coordinates are unbounded integers except where the program saturates; `Drawing.HitIsTopmostDrawn` asks that no offset saturates, and layer arrangement that no plain sum overflows.
- Drawing.HitIsTopmostDrawn: windows with an identity presentation only, and no drag icon, bell or cursor.
- FramePacing.IncrementalIsFull: for any way of painting in which an element changes only pixels its quad overlaps; background, scale and element transforms do not change. Opacity hints never hide anything here.
- Repaint.DamageCoversDifference: coordinates within the range of an `i32`, reals in place of floating point.
- Layer.BarsAreClear: the size plus the margin on the reserved edge must be within the zone; for a larger bar nothing is claimed, nor for a later surface with a negative zone, which the program places over the whole output.
- Configure.PendingIsNewest: below the point where the serial counter wraps.
- Positioner.SlideAndResizeFit: for areas that end short of the largest `i32`, which saturated sums would be mistaken for.
- Positioner.FlipReflects: and `Positioner.HangsOffAnchor`, where none of the sums on the way saturates.
- Wire.RoundTrip: text is bytes, so the replacement of invalid UTF-8 is not modelled; fixed-point arguments are their 24.8 representation; arrays are written and never read.
- CommitTheorems.CommitReaches: and `CommitTheorems.FreedShows` and `CommitTheorems.PresentedAsAsked`, on sound child lists; on others `Sweep.SweepDisplaces` and `SurfaceRuns.SweepCarries` say what holds.
- HitAreas.AcceptsExactly: for points whose right and lower neighbours are in the range of an `i32`, and sizes that are.
- Positions.DrawnWhereSaid: where no sum of offsets saturates.
- PoolLedger.DescriptorsAccounted: descriptors sent with other requests than `wl_shm.create_pool` are not followed.
- DataTheorems.OneOutcome: says nothing of primary-selection sources, which have no such limit.

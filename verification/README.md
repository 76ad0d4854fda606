# cenote, modelled

cenote is a path tracer that runs as a server process. A Hydra delegate translates
a USD stage into change sets and sends them over a socket; pixels come back
through shared memory; importers and small scripts prepare scenes. This project
models five parts of it and proves what each is for.

**The scene translators** (`SceneServer`, `Instancing`, `Geometry`, `Translators`,
`TranslatorRuns`, `MissedRepoints`, `TranslatorObjects`, `Lights`, `Paths`, `Domes`,
`Settings`, `SharedList`, `SharedRuns`, `Populations`). Each prim keeps a ledger of what it holds on
the server and appends patches and removals to one list, which the server takes whole
or not at all. The theorem, in `SharedRuns`, is that the incremental form agrees with
translating the final scene from nothing and that no flush is refused, with the exact
condition wherever the code falls short of it. The step functions in `Geometry` and
`Translators` say what each notice does; the classes in `TranslatorObjects` do the
same in place and are proved equal to them. Geometry, materials and instancers are
first taken alone, then with lights, domes and settings on the one list: each family's
ops stay within its keys, and a list is decided key by key. A notice the scene owes
and no translator has acted on yet is a debt; agreement is stated wherever nothing is
owed, so it holds in the middle of a run too. A notice to a light or a dome carries
what its prim now reads, and its flags must cover what changed. Placements, payloads
and matrices are bit patterns, and matrix arithmetic is a record of arbitrary functions.

**Shared frames and the handshake** (`SharedFrames`, `SharedReads`, `Handshake`). A lock-free double
buffer with one writer and one reader, one word store or load per step, and the
epochs that say which requests a frame contains.

**The wire** (`MessagePack`, `WireValues`, `Responses`, `Requests`, `RequestReader`,
`Framing`). A writer, a strict reader, the envelope and the framing, and the receiver's
positional reader of requests, taken from its own type declarations. A value to be
written is a tree of writer calls; `WireValues.Put` makes the calls. Singles are their 32-bit
patterns, and lengths are below 2^32 where a statement needs it (`Fits`,
`InRange`): longer ones lose their high bytes, in the model as in the code.

**The pbrt importer's lexer and parser** (`PbrtLexer`, `PbrtStream`, `PbrtParser`,
`PbrtDeclarations`, `PbrtGrammar`, `PbrtPrograms`, `PbrtPrinting`). A cursor lexer and a parser over a stack
of files with one token of lookahead, proved to read one flat stream; a grammar said on
its own; trees of files; and printing, the way back to text. Numbers are kept as text,
and which texts are numbers is a parameter.

**Mesh capping** (`MeshCapping`). Boundary loops of an oriented triangle list, traced
and closed with fans, then unwelded.

## Where the code does less than its comments say

- `crates/cenote-wire/src/fb.rs:30-34` calls a copy valid when the counter moved by
  at most one. `SharedFrames.OneAdvanceCanTear` is a copy so accepted that is no
  frame; `NoTornFrame` and `TornExactlyWhenLate` give the condition.
- `hydra/hdCenote/geometryPrim.cpp:876-887` compares two flags after the binding was
  overwritten, so a live instance moved straight from one published material to
  another keeps the first. `Translators.EventKeeps` shows that this is the only
  event that breaks the agreement, `TranslatorRuns.RebindingDangles` where it ends, and
  `MissedRepoints.DamageIsBounded` that it ends nowhere else.
- `hydra/hdCenote/domePrim.cpp:250-255` leaves the payload unread when a dome is born
  without data. `Domes.EventKeeps` shows that the sky goes wrong exactly when such a
  dome becomes the lowest eligible one unread.
- `hydra/hdCenote/settingsPrim.hpp` promises that a departed prim returns the map to
  authority in the same flush. `Settings.DepartureReturnsExactly` says for each setting
  when that holds, and `Settings.DepartedBudgetSurvives` shows one for which it does not.
- `hydra/transport/client.cpp:274-288` compares the rejection counter with what was seen
  before a resize. `Handshake.ResizeNoticedExactly` says which resizes hide nothing.
- `scenes/corpus/curate-head.py:85-95` does not end where two boundary edges of the
  dictionary meet, as in `MeshCapping.BowtieNeverEnds`; where it ends,
  `MeshCapping.Curate` says when the final check fails.
- `hydra/hdCenote/observer.cpp:61-65` keeps a registry per family, and names are shared
  across families. `SharedRuns.LightAtCompanionDangles`,
  `SharedRuns.ResyncAcrossFamiliesTearsDown` and `TranslatorRuns.ClashingNamesDangle`
  show what a shared name does.

## Model

| member | source | states |
|---|---|---|
| `SceneServer.ReplaySplits` | hydra/wire/scene.hpp:11-14 | Change sets compose: replaying one list after another is replaying their concatenation, and a Remove of a missing object anywhere fails the whole. |
| `SceneServer.ReplayRestricts` | hydra/wire/scene.hpp:11-14 | A list is accepted exactly when its ops on some keys and its ops on the others are, each replayed alone; what it leaves under the keys is what its ops on them leave. |
| `SceneServer.ReplayFrames` | hydra/wire/scene.hpp:11-14 | Ops on some keys alone are decided there: accepted on the whole server exactly if on that part of it, and nothing else changes. |
| `Instancing.ComputePlacements` | hydra/hdCenote/instancerPrim.cpp:289-335 | The recursive, looping computation returns the placements the specification gives, for every acyclic nesting, missing and hidden instancers included. |
| `Instancing.ComposeCopies` | hydra/hdCenote/instancerPrim.cpp:306-310 | The copies of one instancer, in index order. |
| `Instancing.AppendCopies` | hydra/hdCenote/instancerPrim.cpp:320-333 | Each parent placement contributes a whole row of child times parent, parents outermost. |
| `Instancing.OpenIsIrrelevant` | hydra/hdCenote/instancerPrim.cpp:289-335 | On acyclic nesting the placements do not depend on the set that bounds the recursion, so the specification is the unbounded recursion. |
| `Instancing.NestingEnumeratesRoutes` | hydra/hdCenote/instancerPrim.cpp:289-335 | Placements are, in order, one grid per chain of visible registered instancers up to one nobody copies; the chains listed are exactly the chains there are, and the length is the sum over chains of products of instance counts. |
| `Instancing.RoutesAreComplete` | hydra/hdCenote/instancerPrim.cpp:312-333 | No chain is left out of the enumeration. |
| `Instancing.CartesianAt` | hydra/hdCenote/instancerPrim.cpp:324-332 | The entry at parent * width + child is child times parent: parents vary slowest. |
| `Instancing.GridActs` | hydra/hdCenote/instancerPrim.cpp:141-162 | However matrices act on points, as long as a product acts as its left factor and then its right: each placement of a chain is one surviving copy of each instancer on it, foot first, and each copy acts by its own matrix, its scale, its rotation, its translation and the instancer's own transform, in that order, absent channels doing nothing. |
| `Instancing.PlacedNowhere` | hydra/hdCenote/instancerPrim.cpp:289-303 | Nothing is placed if and only if every chain has an instancer that copies the prototype nowhere. |
| `Geometry.StandingIs` | hydra/hdCenote/geometryPrim.cpp:813-851 | Where a prim stands, without saying how the list is built: nowhere if it is hidden; alone, once at its own transform if the wire takes it; copied, nowhere until every instancer is registered, and then, instancer by instancer and chain by chain, at each product of its transform and the chain that the wire takes. The computed list is that one and no other. |
| `Geometry.WithdrawLands` | hydra/hdCenote/geometryPrim.cpp:897-917 | Withdrawing removes exactly the objects the ledger records, each Remove naming one that exists, and touches no other prim. |
| `Geometry.PlaceLands` | hydra/hdCenote/geometryPrim.cpp:788-851 | Placing leaves the instance exactly where the cached inputs put it, or gone. |
| `Geometry.ResolveLands` | hydra/hdCenote/geometryPrim.cpp:876-895 | After resolving, the server wears what the ledger says, provided the wear flag still described the binding. |
| `Geometry.ReconcileLands` | hydra/hdCenote/geometryPrim.cpp:700-775 | A whole reconcile, from any state the ledger describes: every op accepted, the server left as the new ledger says, type changes under one path included. |
| `Translators.EventKeeps` | hydra/hdCenote/geometryPrim.cpp:641-917 | For every event of geometry, materials, instancers, scene changes and flushes: the agreement of server, ledgers and scene survives if and only if the event is not a binding edit that moves a live instance straight from one published material to another. |
| `Translators.ConsistentIsSound` | hydra/hdCenote/geometryPrim.cpp:788-811 | Whatever agrees with the ledgers has no dangling reference: targets, worn materials and companions all stand. |
| `Translators.SendKeeps` | hydra/hdCenote/renderDelegate.cpp:248-279 | The pending change set is accepted, the first as a replacement and later ones as overlays, and the server then holds what it mirrored. |
| `Translators.AddKeeps` | hydra/hdCenote/geometryPrim.cpp:641-672 | Births and resyncs, the superseded translator going quietly. |
| `Translators.RemoveKeeps` | hydra/hdCenote/geometryPrim.cpp:674-682 | Deaths withdraw everything the path held. |
| `Translators.ReconcileMaterialKeeps` | hydra/hdCenote/materialPrim.cpp:593-605 | A material arriving repoints every geometry that waits for it. |
| `Translators.WithdrawMaterialKeeps` | hydra/hdCenote/materialPrim.cpp:607-624 | A material dying while worn: every instance lets go before the Remove is appended. |
| `Translators.PokeKeeps` | hydra/hdCenote/instancerPrim.cpp:283-287 | A poke recomposes every instanced geometry from its cached inputs against the instancers as they now are. |
| `TranslatorRuns.IncrementalIsFromScratch` | hydra/hdCenote/geometryPrim.cpp:641-917 | With nothing owed, the server is object by object the scene translated from nothing, each object spelled out field by field and each instance where StandingIs says. |
| `TranslatorRuns.TranslationSays` | hydra/hdCenote/geometryPrim.cpp:788-851 | The instance a scene calls for: there if and only if the prim reads, is visible, and is alone on a transform the wire takes or has every instancer registered; it names the payload and what the prim wears, and stands where the prim does. |
| `TranslatorRuns.MissedRepointDisagrees` | hydra/hdCenote/geometryPrim.cpp:752-754 | Right after a missed repoint the instance wears something other than its binding although the binding is published. |
| `TranslatorRuns.RebindingDangles` | hydra/hdCenote/geometryPrim.cpp:876-887 | A concrete legal run in which the missed repoint makes the server refuse a later flush. |
| `TranslatorRuns.ClashingNamesDangle` | hydra/hdCenote/geometryPrim.cpp:648 | Why a material prim must not stand at a companion name: its death takes the companion along and the flush is refused. |
| `MissedRepoints.RepairKeeps` | hydra/hdCenote/geometryPrim.cpp:876-895 | If the missed repoint were sent, every event whatever would keep the agreement: nothing else is wrong. |
| `MissedRepoints.DamageIsBounded` | hydra/hdCenote/geometryPrim.cpp:752-754 | In any run whose flushes have passed, missed repoints included: the next flush is refused if and only if some instance names a material that was withdrawn; and with nothing owed every object is the translation but for the material an instance names. |
| `SharedList.EventKeeps` | hydra/hdCenote/observer.cpp:56-108 | Geometry, materials, instancers, lights, domes and settings on one list and one server: after every event the whole list is accepted, no prefix of it shows two environments, and every family stands as its ledgers say, if and only if the event neither misses a repoint nor raises a dome unread. |
| `SharedList.PrimsStay` | hydra/hdCenote/observer.cpp:70-97 | An event of the geometry, material or instancer family touches objects of those registered and of the path it registers, and no others. |
| `SharedList.UpdateKeeps` | hydra/hdCenote/renderDelegate.cpp:248-279 | The settings op queued, the one list is accepted whole; what fails to be delivered stays pending and still will be. |
| `SharedRuns.RunStaysInStep` | hydra/hdCenote/observer.cpp:56-108 | Over whole interleaved runs every family stays in step throughout if and only if no event misses a repoint or raises a dome unread. |
| `SharedRuns.EveryFlushIsAccepted` | hydra/hdCenote/renderDelegate.cpp:248-279 | In every such run the change set of every frame, all families together, is accepted whole, and at no prefix do two environments stand. |
| `SharedRuns.RunEqualsFromScratch` | hydra/hdCenote/observer.cpp:56-108 | After any interleaved run that leaves no notice undelivered, the next delivered change set leaves every object, of every family, as translating the scene from nothing would, and the settings as the prim over the map. |
| `SharedRuns.InstancesFromScratch` | hydra/hdCenote/geometryPrim.cpp:788-851 | After such a run the server holds just the instances the scene calls for, each at the transforms its prim, its instancers and their chains give it; no hidden or parked prim is shown. |
| `SharedRuns.ArrivalOrderIsForgotten` | hydra/hdCenote/observer.cpp:19-28 | Two such runs to one scene leave the same objects, whatever order things arrived in and whatever the server held before. |
| `Populations.PopulationTranslates` | hydra/hdCenote/observer.cpp:19-28 | The run theorem speaks of every scene: announce all of it, in any order, each geometry once, and nothing is owed or missed, and the next delivered change set leaves the server holding the translation of the whole scene. |
| `SharedRuns.LightAtCompanionDangles` | hydra/hdCenote/lightPrim.cpp:552-560 | Why an area light must not stand at a companion name: it takes the companion along when it goes and the whole flush is refused. |
| `SharedRuns.ResyncAcrossFamiliesTearsDown` | hydra/hdCenote/observer.cpp:61-65 | Why a path must stay in one family: a mesh resynced to an area light tears the newcomer down, and the flush in which the light goes is refused. |
| `TranslatorObjects.GeometryPrim.Put` | hydra/hdCenote/geometryPrim.cpp:788-811 | The method does what the placing step says, field by field and op by op. |
| `TranslatorObjects.GeometryPrim.Repoint` | hydra/hdCenote/geometryPrim.cpp:876-887 | The method does what the resolving step says. |
| `TranslatorObjects.GeometryPrim.Bring` | hydra/hdCenote/geometryPrim.cpp:700-775 | The in-place reconcile leaves the ledger and ops of the reconcile function. |
| `TranslatorObjects.GeometryPrim.WithdrawAll` | hydra/hdCenote/geometryPrim.cpp:905-915 | The in-place withdrawal. |
| `TranslatorObjects.Delegate.AddGeometry` | hydra/hdCenote/geometryPrim.cpp:641-672 | Registers, inherits and reconciles: the world after is the step function of the world before. |
| `TranslatorObjects.Delegate.RemoveGeometry` | hydra/hdCenote/geometryPrim.cpp:674-682 | Erases and withdraws. |
| `TranslatorObjects.Delegate.RepointGeometry` | hydra/hdCenote/materialPrim.cpp:620-624 | The walk over the registry. |
| `TranslatorObjects.Delegate.PokeGeometry` | hydra/hdCenote/instancerPrim.cpp:283-287 | The poke over the registry. |
| `TranslatorObjects.Delegate.AddMaterial` | hydra/hdCenote/materialPrim.cpp:549-569 | Birth and resync of a material. |
| `TranslatorObjects.Delegate.RemoveMaterial` | hydra/hdCenote/materialPrim.cpp:571-579 | Death of a material. |
| `TranslatorObjects.Delegate.AddInstancer` | hydra/hdCenote/instancerPrim.cpp:219-240 | Registers, then pokes every geometry. |
| `TranslatorObjects.Delegate.RemoveInstancer` | hydra/hdCenote/instancerPrim.cpp:242-255 | Erases, then pokes, so what it placed parks. |
| `TranslatorObjects.Delegate.Update` | hydra/hdCenote/renderDelegate.cpp:248-279 | The flush: genesis is sent even when empty, later flushes only when there is something to say; what is not delivered stays pending, genesis included. |
| `Lights.ReconcileLands` | hydra/hdCenote/lightPrim.cpp:443-562 | From what stands for one reading to what stands for the next, a change of spelling included, whatever else the server holds: every op is accepted and nothing but the light's own objects is touched. |
| `Lights.EventLands` | hydra/hdCenote/lightPrim.cpp:395-441 | Any birth, resync, edit or death of a light on the shared server: the removals name what is there, every light then stands as it reads, and no object of another translator moves. |
| `Lights.LightPrim.Reconcile` | hydra/hdCenote/lightPrim.cpp:443-562 | The in-place reconcile appends and records what the reconcile function says. |
| `Lights.LightPrim.Withdraw` | hydra/hdCenote/lightPrim.cpp:651-672 | Removes the instance before what it wears. |
| `Domes.EventKeeps` | hydra/hdCenote/domePrim.cpp:233-334 | Every event is accepted and never shows two environments. Afterwards the server shows exactly the lowest eligible dome, if and only if the event does not make a dome the lowest whose payload was never read: by showing it, or by hiding, killing or losing the one ahead. In that case nothing stands under its name. |
| `Domes.RunKeepsOneSky` | hydra/hdCenote/domePrim.cpp:399-445 | The same over whole runs, in both directions; a dome unread behind the winner does no harm. |
| `Domes.SkyFollowsScene` | hydra/hdCenote/domePrim.cpp:399-445 | When dirty flags cover what changed: never two environments at any prefix of the ops, and in the end just the lowest visible dome, or none if none is visible. |
| `Paths.AncestorsFirst` | hydra/hdCenote/domePrim.hpp:45 | In the order of the registry a path stands before everything below it. |
| `Paths.SiblingsByName` | hydra/hdCenote/domePrim.hpp:45 | Siblings stand by name, each with everything below it: where the names part, the one that ends or has the smaller letter is first. |
| `Domes.HandOverReplays` | hydra/hdCenote/domePrim.cpp:406-421 | One arbitration appends at most a Remove and a patch, both accepted, never two environments between them. |
| `Domes.BlankSkyIsRefused` | hydra/hdCenote/domePrim.cpp:250-255 | A dome born without data and then only made visible publishes a patch that names nothing; hiding it removes an object that is not there. |
| `Domes.Registry.Arbitrate` | hydra/hdCenote/domePrim.cpp:399-429 | The two loops over the registry do what the arbitration function says. |
| `Domes.Registry.Construct` | hydra/hdCenote/domePrim.cpp:233-257 | Birth and resync, the ledger inherited but not the payload. |
| `Domes.Registry.Destroy` | hydra/hdCenote/domePrim.cpp:259-270 | Erase, withdraw, then fail over. |
| `Domes.Registry.Refresh` | hydra/hdCenote/domePrim.cpp:288-334 | Re-reads what is dirty, then arbitrates. |
| `Settings.EventKeeps` | hydra/hdCenote/settingsPrim.cpp:53-91 | Every claim, release, resync and death keeps the slot answering for the active prim wherever no notice is owed. |
| `Settings.SlotFollowsScene` | hydra/hdCenote/settingsPrim.cpp:53-91 | In whatever order claims, releases and resyncs came, once every notice is delivered the slot holds the active prim's resolution, or nothing. |
| `Settings.ServerIsTheOverlay` | hydra/hdCenote/renderDelegate.cpp:218-279 | After every accepted update the server reads as the prim over the map in each field either answers; when the map answers all four, in all four, so nothing of a departed prim survives. |
| `Settings.UnansweredStays` | hydra/hdCenote/renderSettings.cpp:248-267 | Any of the four fields neither source answers keeps what was there or was on its way. |
| `Settings.DepartureReturnsExactly` | hydra/hdCenote/settingsPrim.cpp:80-91 | Over every run: once no prim answers a field, the next accepted update gives it back to the map if and only if the map answers it or agrees already with what was left. |
| `Settings.DepartedBudgetSurvives` | hydra/hdCenote/settingsPrim.cpp:80-91 | So with a map that answers nothing, a departed prim's sample budget stays on the server. |
| `Settings.SettingsPrim.Refresh` | hydra/hdCenote/settingsPrim.cpp:53-91 | Claims when active, otherwise releases; only the holder can release. |
| `Settings.RenderDelegate.Update` | hydra/hdCenote/renderDelegate.cpp:248-279 | The settings op is queued when either source moved; a degraded client drops what is pending and marks nothing sent. |
| `SharedFrames.NoTornFrame` | crates/cenote-server/src/shm.rs:379-421 | In every interleaving of word stores and loads, an accepted copy is one whole frame when the counter did not move, or the reader picked the newer buffer, or no word of the buffer had been stored over by the closing load. |
| `SharedFrames.TornExactlyWhenLate` | crates/cenote-wire/src/fb.rs:19-37 | An accepted copy is the frame picked if and only if, at every word loaded late, the frame two later has the same word. |
| `SharedFrames.OneAdvanceCanTear` | crates/cenote-wire/src/fb.rs:30-34 | A copy across one advance, accepted, that is no frame at all: the stated rule admits torn copies. |
| `SharedFrames.SnapshotsNeverGoBack` | crates/cenote-server/src/shm.rs:258-263 | Successive accepted copies never go back in frame or counter. |
| `SharedFrames.PublishRuns` | crates/cenote-server/src/shm.rs:224-264 | An uninterrupted publish fills one buffer, flips it and counts it. |
| `SharedFrames.Segment.Publish` | crates/cenote-server/src/shm.rs:224-264 | The array-filling method is that run of steps. |
| `SharedFrames.Segment.CopyPlane` | hydra/transport/view.cpp:133-164 | Undisturbed, copies the plane of the front buffer, and reports failure exactly when nothing was published. |
| `SharedReads.CloseAccepts` | hydra/transport/view.cpp:153-164 | A finished copy is believed if and only if the counter moved by one at most, and is then recorded as it was copied. |
| `SharedReads.QuietCopyAccepted` | hydra/transport/view.cpp:133-164 | From every state the machine can reach with a frame counted, an attempt the writer leaves alone is believed, and is the newest frame flipped to the front. |
| `Handshake.ConvergedMeansCurrent` | hydra/transport/client.hpp:65-67 | In every interleaving, resizes and skipped wrong-sized frames included: a poll that answers converged read the flag of a frame stamped at or past the last acknowledged epoch, and that frame incorporates every request acknowledged so far. |
| `Handshake.PollAnswers` | hydra/transport/client.hpp:65-67 | An uninterrupted poll answers true if and only if a frame was counted, the header's epoch has reached the last one acknowledged and the flag is up; it changes nothing else. |
| `Handshake.SettledIsSeen` | hydra/transport/client.hpp:58-67 | The host's loop ends: from the moment a settled frame stamped at or past the last acknowledgement is counted, and for as long as no request follows and what is rendered stays settled, every poll answers true. |
| `Handshake.ConvergenceStaysReachable` | hydra/transport/client.hpp:58-67 | From every reachable state, whatever exchange, poll, publish or wave was under way, finishing it and rendering one settled wave makes the next poll answer true, with no further request. |
| `Handshake.TrueMeansEverything` | hydra/transport/client.hpp:58-67 | Whenever a poll answers true, the frame on display is stamped at or past, and incorporates, every session call ever placed. |
| `Handshake.FramesFit` | crates/cenote-server/src/shm.rs:224-240 | No frame is ever written into a segment of another size, resizes in between included. |
| `Handshake.EditCounts` | crates/cenote-server/src/main.rs:274-304 | An exchange counts its session calls, brings home every pending rejection and raises the bar to the epoch it reports. |
| `Handshake.ResizeCounts` | hydra/transport/client.cpp:215-243 | A resize is one call, opens a segment that shows nothing yet and raises the bar past it. |
| `Handshake.RejectionsDeliveredOnce` | crates/cenote-server/src/main.rs:274-304 | What was delivered, what the current reply carries and what is pending are together what was raised, in order, over every run. |
| `Handshake.RejectionsAreNoticed` | crates/cenote-server/src/main.rs:377-381 | In a segment generation that started clean, an idle client with rejections pending sees a counter different from what it last saw; all it can miss is a rejection listed and not yet counted. |
| `Handshake.CollectDelivers` | hydra/transport/client.cpp:274-288 | An idle client's collection brings home all that is pending when the counter moved, and does nothing when it did not. |
| `Handshake.ResizeNoticedExactly` | hydra/transport/client.cpp:215-243 | An idle client notices what is pending at every point of the generation a resize opens, before the counter wraps, if and only if at the resize nothing was pending and it had never collected. |
| `Handshake.ResizeHidesARejection` | hydra/transport/client.cpp:274-288 | A concrete run in which a resize hides a rejection. |
| `MeshCapping.DegreesBalance` | scenes/corpus/curate-head.py:76-81 | On an oriented mesh every vertex is left as often as it is entered. |
| `MeshCapping.BoundaryPermutes` | scenes/corpus/curate-head.py:82-83 | If no vertex has two outgoing boundary edges, the boundary map is a permutation. |
| `MeshCapping.CountEdges` | scenes/corpus/curate-head.py:76-80 | The counter holds the multiplicity of every directed edge. |
| `MeshCapping.BoundaryMap` | scenes/corpus/curate-head.py:82-83 | The dictionary holds, for every vertex a boundary edge leaves, the last such edge in first-seen order. |
| `MeshCapping.TraceLoops` | scenes/corpus/curate-head.py:85-95 | Tracing ends; its loops are cycles of the map and each boundary vertex lies on exactly one, at one place. |
| `MeshCapping.TracingEndsOnlyOnPermutations` | scenes/corpus/curate-head.py:85-95 | If the map is not a permutation, some start is never come back to, and no earlier loop can have taken it. |
| `MeshCapping.FanCounts` | scenes/corpus/curate-head.py:113-118 | A fan holds each turned rim edge and each spoke in both directions once. |
| `MeshCapping.ClosedExactlyWhenUnforked` | scenes/corpus/curate-head.py:97-126 | Whenever tracing ends, the capped mesh has every directed edge once and its reverse once, if and only if the boundary does not fork. |
| `MeshCapping.Orientable` | scenes/corpus/curate-head.py:81 | The first check says whether the mesh is oriented. |
| `MeshCapping.ClosingCheck` | scenes/corpus/curate-head.py:121-126 | The second check says whether the mesh is closed. |
| `MeshCapping.CapLoops` | scenes/corpus/curate-head.py:97-119 | One centre vertex and one fan per loop, the shell untouched; each centre is the mean of its loop's own vertices, each taken once, in order. |
| `MeshCapping.Unweld` | scenes/corpus/curate-head.py:143-170 | Each lid triangle gets three vertices of its own, copies in all but the normal, which is its own facet's, from its three positions in order and turned to its centre's normal. |
| `MeshCapping.SplitWeldsBack` | scenes/corpus/curate-head.py:172-177 | Identifying copies with originals gives back the capped mesh triangle for triangle, and every copy stands where its original stands. |
| `MeshCapping.Curate` | scenes/corpus/curate-head.py:70-177 | The whole script on every mesh it comes to an end on: it stops at the first check exactly if the mesh is not oriented, succeeds exactly if moreover the boundary does not fork, and then keeps the shell, caps every cycle of the boundary about its own mean, gives each lid triangle its facet's normal and welds back to a closed mesh. |
| `MeshCapping.UnforkedEnds` | scenes/corpus/curate-head.py:82-95 | On an unforked boundary the script does come to an end. |
| `MeshCapping.BowtieNeverEnds` | scenes/corpus/curate-head.py:85-95 | A concrete mesh that passes the first check and on which tracing never ends, whichever edge the dictionary keeps. |
| `MessagePack.UIntReadsBack` | hydra/wire/msgpack.cpp:36-48 | An unsigned number is read back wherever it stands in a payload. |
| `MessagePack.HeaderReadsBack` | hydra/wire/msgpack.cpp:84-102 | Array, map and string headers are read back. |
| `MessagePack.StrReadsBack` | hydra/wire/msgpack.cpp:70-82 | A string is read back. |
| `MessagePack.UIntAccepts` | hydra/wire/msgpack.cpp:111-134 | Whatever form a number was read from, it fits its width and the writer's form is no longer. |
| `MessagePack.HeaderAccepts` | hydra/wire/msgpack.cpp:168-214 | The same for headers. |
| `MessagePack.StrAccepts` | hydra/wire/msgpack.cpp:136-166 | The same for strings, which lie inside the payload. |
| `MessagePack.Writer.PutBigEndian` | hydra/wire/msgpack.cpp:104-109 | The shifting loop appends the format and the low bytes, most significant first. |
| `MessagePack.Writer.PutUInt` | hydra/wire/msgpack.cpp:36-48 | Appends the shortest form. |
| `MessagePack.Writer.PutSInt` | hydra/wire/msgpack.cpp:50-66 | Appends the shortest signed form, non-negative numbers as unsigned ones. |
| `MessagePack.Writer.PutStr` | hydra/wire/msgpack.cpp:70-82 | Appends the shortest header and the bytes. |
| `MessagePack.Reader.BigEndianOf` | hydra/wire/msgpack.cpp:224-235 | The byte loop reads the number and advances the cursor past it. |
| `MessagePack.Reader.StrOf` | hydra/wire/msgpack.cpp:136-166 | Reads exactly the accepted forms, with the errors and offsets of the others. |
| `WireValues.PrefixFree` | hydra/wire/scene.hpp:386-426 | Whatever follows them, equal bytes mean equal values and equal rests: no encoding is a proper prefix of another. |
| `WireValues.TreeReadsBack` | hydra/wire/msgpack.cpp:13-28 | A reader of its own, driven by the format byte, finds every value again where it stands in a payload, nil, both booleans, singles and variant maps by their standard bytes. |
| `WireValues.UniqueAt` | hydra/wire/msgpack.cpp:13-28 | Two values standing at one place of a payload are the same value. |
| `WireValues.Put` | hydra/wire/scene.hpp:386-426 | Writing a value by the writer's calls appends its encoding. |
| `Responses.RoundTrip` | hydra/wire/protocol.cpp:188-241 | Decoding an encoded reply returns it, for every reply in range. |
| `Responses.Encode` | hydra/wire/protocol.cpp:188-211 | The method writes the reply's encoding. |
| `Responses.AcceptedIsInRange` | hydra/wire/protocol.cpp:213-241 | An accepted payload is used to its last byte, its fields are in range, and encoding the result again decodes to the same reply in no more bytes. |
| `Responses.DecodeResponse` | hydra/wire/protocol.cpp:213-241 | The decoder method computes the specified result, every error with its offset. |
| `Responses.DecodeAck` | hydra/wire/protocol.cpp:86-111 | The loop over rejections reads them in order. |
| `Responses.DecodeFb` | hydra/wire/protocol.cpp:35-65 | Four fields, each checked. |
| `RequestReader.RequestsArrive` | crates/cenote-wire/src/scene.rs:30-427 | The receiver, written from its own declarations with structs positional, variants and enums by name and absent options nil, reads every request as the client meant it: each field at its place, to the last byte. |
| `RequestReader.MaterialBack` | crates/cenote-wire/src/scene.rs:323-357 | All thirty fields of a material are read at their declared places. |
| `RequestReader.OpBack` | crates/cenote-wire/src/scene.rs:52-74 | Every op is read back as itself. |
| `RequestReader.MaterialSame` | hydra/wire/scene.cpp:234-266 | All thirty fields of a material patch survive in its tree. |
| `RequestReader.ResetStatesStayApart` | hydra/wire/scene.hpp:386-416 | Absent, cleared and set never share their bytes, for any payload type that does not encode to nil. |
| `RequestReader.OpSame` | hydra/wire/scene.cpp:303-346 | Different ops have different trees. |
| `RequestReader.RequestsAreUniquelyDecodable` | hydra/wire/protocol.cpp:152-186 | Distinct requests never share their bytes, whatever follows them. |
| `Requests.EncodeRequest` | hydra/wire/protocol.cpp:152-186 | The method writes the request's encoding. |
| `Framing.FrameReadsBack` | crates/cenote-wire/src/protocol.rs:170-207 | A frame standing anywhere in a stream is read as its payload. |
| `Framing.Sink.WriteMessage` | crates/cenote-wire/src/protocol.rs:170-184 | A payload past the cap is refused with nothing written; any other is appended framed. |
| `Framing.Source.ReadMessage` | crates/cenote-wire/src/protocol.rs:194-207 | A length past the cap is refused with only the length consumed; end of input is reported inside a frame too. |
| `Framing.StreamsSplit` | crates/cenote-wire/src/protocol.rs:170-207 | Reading back any list of messages within the cap returns that list and then the end of the input. |
| `Framing.ConversationsDiffer` | crates/cenote-wire/src/protocol.rs:170-207 | Two different request conversations never put the same bytes on the socket. |
| `Framing.RequestsArriveInOrder` | crates/cenote-wire/src/protocol.rs:163-207 | The server recovers every request of a conversation, in order, field by field. |
| `Framing.RepliesArrive` | crates/cenote-wire/src/protocol.rs:194-207 | The client recovers every reply of a conversation, in order. |
| `PbrtLexer.NextSpan` | crates/cenote-pbrt/src/tokenize.rs:52-127 | The cursor loops find the next token, its span and line, and stand just past it; an open string is reported at its first line. |
| `PbrtLexer.PrintedLexes` | crates/cenote-pbrt/src/tokenize.rs:52-127 | Printing words with any whitespace and comments between them and lexing returns the words, each on the line its place in the text says. |
| `PbrtLexer.FileRoundTrip` | crates/cenote-pbrt/src/tokenize.rs:52-127 | The same for a whole file, a last comment left unended included. |
| `PbrtStream.SpliceShrinks` | crates/cenote-pbrt/src/parse.rs:409-421 | An include with its file spliced in leaves less work than there was before it, by the limit of 32 open files, cycles or not. |
| `PbrtStream.IncludeCosts` | crates/cenote-pbrt/src/parse.rs:384-408 | An include takes two tokens of the stream, its name the last. |
| `PbrtParser.DepthIsStackHeight` | crates/cenote-pbrt/src/parse.rs:413 | The height of the stack is the number of file ends still ahead, files with nothing left included. |
| `PbrtParser.Parser.Next` | crates/cenote-pbrt/src/parse.rs:317-333 | Delivers the first token of the stream the stack stands for, its span read against the file it came from, and only the top file ever holds a token looked ahead at. |
| `PbrtParser.Parser.Peek` | crates/cenote-pbrt/src/parse.rs:335-341 | The same without taking it. |
| `PbrtParser.Parser.ReadBracketed` | crates/cenote-pbrt/src/parse.rs:428-451 | Numbers with one optional level of brackets, as the stream specification reads them. |
| `PbrtParser.Parser.ReadParams` | crates/cenote-pbrt/src/parse.rs:469-494 | Parameters until a token that declares none. |
| `PbrtParser.Parser.ReadList` | crates/cenote-pbrt/src/parse.rs:498-541 | The homogeneous list, its kind decided by its first value. |
| `PbrtParser.Parser.ReadDirective` | crates/cenote-pbrt/src/parse.rs:381-425 | Reads what the flat stream says comes next, includes spliced; it always returns. |
| `PbrtParser.Parser.Rewind` | crates/cenote-pbrt/src/parse.rs:300-303 | Starts over from the top file; if that cannot be opened the old stack stays. |
| `PbrtGrammar.DirectiveReads` | crates/cenote-pbrt/src/parse.rs:428-544 | Every directive the grammar spells, each keyword with its own count of names and numbers, is read as itself and nothing after it is taken. |
| `PbrtGrammar.DirectiveSound` | crates/cenote-pbrt/src/parse.rs:381-544 | Whatever directive is read was spelled by the tokens taken, in order, none skipped. |
| `PbrtGrammar.GrammarIsUnambiguous` | crates/cenote-pbrt/src/parse.rs:230-250 | No token list spells two directives. |
| `PbrtGrammar.TableIsTheGrammar` | crates/cenote-pbrt/src/parse.rs:230-250 | The parser's table has just the keywords of the grammar, each with its count of names and numbers and whether parameters follow; every other keyword is refused. |
| `PbrtDeclarations.DeclarationReads` | crates/cenote-pbrt/src/parse.rs:469-494 | A quoted type and name, with whitespace between and perhaps around them, is split into the two. |
| `PbrtDeclarations.DeclarationFound` | crates/cenote-pbrt/src/parse.rs:469-494 | Whatever is split into two words was such a declaration. |
| `PbrtPrograms.NextByNext` | crates/cenote-pbrt/src/parse.rs:381-425 | Reading everything is reading the next directive over and over, each time with less left to do. |
| `PbrtPrograms.ProgramReads` | crates/cenote-pbrt/src/parse.rs:409-421 | A tree of files reads as its directives flattened in order if it nests no deeper than the limit, and is refused as too deep otherwise. |
| `PbrtPrograms.SceneReads` | crates/cenote-pbrt/src/parse.rs:381-425 | The same for a scene from its top file: exactly the trees of height below 32. |
| `PbrtPrograms.PrintedTextSays` | crates/cenote-pbrt/src/tokenize.rs:52-127 | A file whose text prints words spelling a program says that program. |
| `PbrtPrinting.DirectiveSpelled` | crates/cenote-pbrt/src/parse.rs:428-544 | The words of every well-formed directive spell it, brackets where they are optional or not. |
| `PbrtPrinting.PrintedSays` | crates/cenote-pbrt/src/parse.rs:381-544 | A file printed from well-formed directives and includes, in either style and with any whitespace and comments, says that program, each directive and parameter on the line it was printed on. |
| `PbrtPrinting.PrintedReads` | crates/cenote-pbrt/src/parse.rs:381-544 | The round trip: any list of well-formed directives, printed and then lexed and parsed, comes back whole and without error, each on one more than the newlines before it. |
| `PbrtPrinting.PlacingKeeps` | crates/cenote-pbrt/src/parse.rs:230-250 | What comes back differs from what was printed in paths and lines alone. |
| `PbrtPrinting.AnythingPrints` | crates/cenote-pbrt/src/tokenize.rs:52-127 | Every list has a text: a space before each word will do. |
| `PbrtPrograms.ReadScene` | crates/cenote-pbrt/src/parse.rs:565-569 | The consumer loop returns the whole reading of the stream. |

## Left out

- Weak memory: every load and store is one sequentially consistent step. Release,
  acquire and relaxed ordering are not modelled.
- Header words of the shared segment other than the front index, the frame counter,
  the converged flag, the epoch and the rejection counter, and `View::snapshot`'s
  pair of converged and epoch, which is read in the other order.
- GPU, window, image and denoiser code, POSIX calls, process start-up and timeouts.
  A client is alive or degraded; a degraded one never recovers.
- Reading USD: a prim is a record of what the readers would return, or nothing.
  Dirty locators are flags. Warnings and message texts, except where an error's
  place and kind are part of the result.
- Radiometry, tessellation of area lights, the mesh centroid and facet normals: their
  results are parameters.
- Runs in which two families share a name: no geometry, companion or material may stand
  where an area light does. The last three lemmas named above show what happens in
  them. Delta lights and domes have kinds of their own and may stand anywhere.
- A degraded client: what it drops never reaches a server, so runs end there.
- Instancing.ComputePlacements: requires acyclic nesting, because on a cycle the C++
  recursion does not return; so do the geometry class's methods that call it. The
  step functions bound the recursion by the instancers not yet visited, and
  `Instancing.OpenIsIrrelevant` says the bound does nothing on acyclic nesting.
- Handshake: the server loop, the pump and the client are one step function each over a
  shared state and not classes, because what matters is their interleaving. A
  failed call, which degrades the client for good, is not a step.
- SharedFrames.Segment.CopyPlane: the method stands alone with its segment, so its retry
  never finds the counter moved; the interleaved attempt is in the step machine.
- Registries are passed to the geometry class as values taken at the call; the
  aliasing between registries is not modelled.
- Translators: a material prim at `<geometry>/displayColor` is excluded as a hypothesis of
  legal runs, for the same reason.
- Settings: resolution and clamping of host values, version counters wrapping at
  2^32, and the parts of `Update` that are not about settings, which are in
  `TranslatorObjects`.
- The per-type encoder overloads are functions to trees of writer calls, not one method
  each. Signed integers are written and not read, as in the source.
- RequestReader: what the server's deserializer makes of payloads no client here writes,
  and the Rust encoder. The reader takes each declared shape in the one form the client
  uses and ignores what follows a message, as the original does.
- Text in the lexer is characters and not bytes. All delimiters are ASCII, so tokens and
  lines are the same and offsets count characters.
- `Params` accessors, the path arithmetic of `resolve`, and what the importer makes of
  directives.
- MeshCapping.Curate: requires that the dictionary lets no two boundary edges of an
  oriented mesh meet, because tracing otherwise does not end
  (`TracingEndsOnlyOnPermutations`).
- Reading and writing PLY files.

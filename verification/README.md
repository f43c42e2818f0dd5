# Signal chain and stream muxer of the Open Ephys GUI, in Dafny

This project models two parts of the Open Ephys plugin GUI and proves properties of the
model.

**The signal-chain graph.** `SignalChainManager` keeps a graph of `SignalElement`s. Each
element wraps a processor (or none, for a start node) and owns ordered arrays of input and
output `Port`s. A port has at most one partner. Links only join an `OutPort` to an `InPort`
(or to its `SourcePort` subclass).
- The model holds the graph as an arena: a map from port ids to port records, a map from
  element ids to elements, and the two ordered collections `m_elements` and `m_startNodes`.
- A port record names its owning element, so the proofs can see that editing one element
  leaves every other element's ports alone.
- The operations modelled are:
  - `Port::connect`, `disconnect` and `getConnection`, and the channel counts of the ports;
  - `SignalElement::updateConnections` and `updateChannelCounts`;
  - `createElement`, `placeElement` (after an output, before an input), `detachElement`,
    `sanitizeChain` and `removeProcessor`;
  - the `addProcessor` and `moveProcessor` overloads, both the port variants and the
    relative ones;
  - `updateChainConnectivity`.

**The stream muxer.** `StreamMuxer::updateSettings` does three things:
- it splits the input channels into runs that share a source (node id and sub-processor
  index);
- it buckets the runs into `StreamGroup`s by sample rate and run length, recording each
  run's first channel;
- it re-validates the user's selected group and stream, then sizes the output.

`setParameter` selects a group or a stream. The first of these marks the next update as
caused by the selection, and such an update skips regrouping.

Modules:
- `Wrappers` (`wrappers.dfy`): `Option`.
- `Ports` (`ports.dfy`): ports, `connect`/`disconnect`, channel counts.
- `SignalElements` (`signal_element.dfy`): element port arrays and `updateConnections`.
- `SignalChain` (`signal_chain.dfy`): the chain arena, its invariant, `createElement` and
  `updateChainConnectivity`.
- `ChainSanitize` (`sanitize.dfy`): `sanitizeChain`.
- `ChainEdits` (`edits.dfy`): splice and detach on the arena.
- `ChainManager` (`manager.dfy`): the public edits on the chain.
- `StreamMuxer` (`stream_muxer.dfy`): the muxer.

The processor is not modelled. Its stream and channel counts enter as a parameter
`infoOf: ProcId -> ProcInfo`, where `ProcInfo` holds the number of input streams and the
channel count of each output stream. Sample rates are an opaque `Rate = Unset | Rate(hz)`.
`Unset` is the NaN of a default-constructed group: it equals no rate, itself included.

## Model

| member | source | states |
|---|---|---|
| `Ports.GetConnection` | Source/UI/SignalChainManager.cpp:38-41 | a port's connection, when there is one, is a port that points back to it and has the opposite direction |
| `Ports.Disconnect` | Source/UI/SignalChainManager.cpp:43-49 | both ends end up unconnected and the old partner is returned; the relation stays symmetric; every other port is unchanged; on an unconnected port nothing changes (the corrected behaviour, see Findings) |
| `Ports.Connect` | Source/UI/SignalChainManager.cpp:66-75 | when `dest` is already the partner nothing changes and `dest` is returned; otherwise the two ports end up partners, their former partners are left unconnected, the caller's former partner is returned, and no other port changes |
| `Ports.ConnectFree` | Source/UI/SignalChainManager.cpp:66-75 | connecting two unconnected ports only links them to each other |
| `Ports.DisconnectAsWritten` | Source/UI/SignalChainManager.cpp:43-49 | the code as written fails exactly when the port is unconnected |
| `Ports.ConnectAsWrittenFails` | Source/UI/SignalChainManager.cpp:66-75 | as written, `connect` fails exactly when the two ports are not already linked and one of them is free; when it does not fail it agrees with `Connect` |
| `Ports.ConnectAsWritten` | Source/UI/SignalChainManager.cpp:66-75 | `connect` with both unguarded `disconnect` calls: it fails only when one end is free, and when it succeeds it returns the caller's former partner |
| `Ports.FreshConnectCrashes` | Source/UI/SignalChainManager.cpp:410-413 | connecting a new start node's free output to a free input fails as written, while `Connect` links the two |
| `Ports.Link` | Source/UI/SignalChainManager.cpp:72-73 | two free ports become each other's partner; the relation stays symmetric and nothing else changes |
| `Ports.NumChannels` | Source/UI/SignalChainManager.cpp:85-119 | an output reports the count it stores; an unconnected input reports 0 |
| `Ports.InputReadsThrough` | Source/UI/SignalChainManager.cpp:113-119 | an input reports the channel count of the output it is linked to, or 0 when it is unconnected |
| `Ports.ConnectedChannels` | Source/UI/SignalChainManager.cpp:113-119 | after `connect` the input end reports the output end's count, which the link does not change; after `disconnect` an input reports 0 |
| `Ports.UpdateChannelCount` | Source/UI/SignalChainManager.cpp:90-93 | the output afterwards reports the new count; its partner and owner, and every other port, are unchanged |
| `Ports.CountReachesInput` | Source/UI/SignalChainManager.cpp:90-93 | the input linked to an output sees the output's new count |
| `Ports.DisconnectAll` | Source/UI/SignalChainManager.cpp:370-377 | after disconnecting a list of ports, each of them is unconnected and every other port has lost only its links into the list |
| `Ports.DisconnectAllFree` | Source/UI/SignalChainManager.cpp:370-377 | disconnecting ports that are all unconnected changes nothing |
| `Ports.RemovePorts` | Source/UI/SignalChainManager.cpp:33-36 | destroying ports removes exactly them and clears every link into them, keeping the relation symmetric |
| `Ports.UnlinkUndoesLink` | Source/UI/SignalChainManager.cpp:43-49 | disconnecting either end of a fresh link restores the arena and returns the other end |
| `SignalElements.Resize` | Source/UI/SignalChainManager.cpp:200-206 | a port array is truncated or grown to exactly n ports, and the ports below n are kept in order |
| `SignalElements.ResizeStep` | Source/UI/SignalChainManager.cpp:228-234 | resizing creates only fresh, unconnected ports of the array's class with no channels, owned by the element; it destroys only ports of the array; surviving ports lose only their links into destroyed ports; ports past the old length are new |
| `SignalElements.GrowInputs` | Source/UI/SignalChainManager.cpp:192-207 | for a processor needing n > 0 input streams there are exactly n inputs; a leading source port is dropped and the remaining ports below n are kept in order |
| `SignalElements.GrowInputsStep` | Source/UI/SignalChainManager.cpp:192-207 | the ports past the kept ones are new `InPort`s; when a source port could only be a sole input, every input afterwards is ordinary; other ports only lose links into destroyed ones |
| `SignalElements.KeptOrdinary` | Source/UI/SignalChainManager.cpp:194-198 | once a leading source port is removed, every input that is left is ordinary |
| `SignalElements.UpdateInputs` | Source/UI/SignalChainManager.cpp:189-223 | for n > 0 input streams there are exactly n inputs; for none there is at least one input, and an array led by a source port is kept as it is |
| `SignalElements.SourceInputs` | Source/UI/SignalChainManager.cpp:208-223 | for a processor needing no input stream an existing leading source port is kept as is; otherwise the inputs become exactly one port |
| `SignalElements.SourceInputsStep` | Source/UI/SignalChainManager.cpp:208-223 | that one port is a new `SourcePort` |
| `SignalElements.UpdateInputsStep` | Source/UI/SignalChainManager.cpp:189-223 | the input half of `updateConnections` always leaves at least one input: for n > 0 streams, n inputs as in `GrowInputs`; for none, the existing leading source port or else one new `SourcePort`; a source port stays a sole input |
| `SignalElements.ProcessorPorts` | Source/UI/SignalChainManager.cpp:225-234 | the outputs number exactly the processor's output streams |
| `SignalElements.ProcessorPortsStep` | Source/UI/SignalChainManager.cpp:186-235 | for an element with a processor, the inputs are resized as above; the outputs number the streams, with the surviving ports kept in order and the rest new; only the element's own ports change |
| `SignalElements.ProcessorOutputs` | Source/UI/SignalChainManager.cpp:232-233 | output ports beyond the old array are new ports |
| `SignalElements.StartOutput` | Source/UI/SignalChainManager.cpp:239-243 | a start node ends with exactly one output, kept when it already had exactly one |
| `SignalElements.StartPorts` | Source/UI/SignalChainManager.cpp:236-244 | a start node ends with no processor, no inputs and exactly one output |
| `SignalElements.StartPortsStep` | Source/UI/SignalChainManager.cpp:236-244 | a single existing output is kept, otherwise the one output is new; only the element's own ports change |
| `SignalElements.StartPortsEmpty` | Source/UI/SignalChainManager.cpp:151-156 | constructing a start node adds exactly one new unconnected output and nothing else |
| `SignalElements.UpdateConnections` | Source/UI/SignalChainManager.cpp:184-245 | `updateConnections` never changes which processor an element wraps |
| `SignalElements.UpdateConnectionsStep` | Source/UI/SignalChainManager.cpp:184-245 | the element owns exactly its new arrays; other elements' ports survive with only links into destroyed ports cleared; the arrays match the processor's counts or the start-node shape |
| `SignalElements.SetChannelCounts` | Source/UI/SignalChainManager.cpp:251-253 | output i reports stream i's channel count; no link, owner or class changes |
| `SignalElements.UpdateChannelCounts` | Source/UI/SignalChainManager.cpp:247-255 | each output of a processor's element takes its stream's channel count; other elements' ports and all links are unchanged; a start node is untouched |
| `SignalChain.FirstOut` | Source/UI/SignalChainManager.cpp:179-182 | `getOutPort(0)` is the first output, or null exactly when the array is empty |
| `SignalChain.OutLink` | Source/UI/SignalChainManager.cpp:389 | `getOutPort(0)->getConnection()` is present exactly when output 0 exists and is connected |
| `SignalChain.UpdateElement` | Source/UI/SignalChainManager.cpp:437 | `updateConnections` on one element changes no other element and neither collection; a start node keeps no input and one output |
| `SignalChain.UpdateElementValid` | Source/UI/SignalChainManager.cpp:437 | `updateConnections` keeps the chain invariant (symmetric links, each port owned by exactly one listed element) and the element shapes |
| `SignalChain.UpdateElementSized` | Source/UI/SignalChainManager.cpp:186-235 | afterwards the element's arrays match its processor's stream counts |
| `SignalChain.NewElement` | Source/UI/SignalChainManager.cpp:151-156 | a new element gets a fresh id, is appended to `m_elements` (or, with no processor, to the start nodes), wraps the given processor, and changes no other element |
| `SignalChain.NewElementValid` | Source/UI/SignalChainManager.cpp:151-156 | adding a new element keeps the chain valid |
| `SignalChain.NewElementPorts` | Source/UI/SignalChainManager.cpp:151-156 | every port of the new element is new, unconnected and its own; old ports are unchanged |
| `SignalChain.CreateElement` | Source/UI/SignalChainManager.cpp:354-359 | `createElement` appends a new element for the processor to `m_elements` and keeps the chain valid |
| `SignalChain.CreatedPorts` | Source/UI/SignalChainManager.cpp:354-359 | the created element's ports are new and unconnected; old ports are unchanged |
| `SignalChain.CreatedSized` | Source/UI/SignalChainManager.cpp:354-359 | the created element's arrays match the processor's counts |
| `SignalChain.UpdateAll` | Source/UI/SignalChainManager.cpp:433-438 | updating a list of elements keeps the collections, the element ids and the processors |
| `SignalChain.UpdateAllValid` | Source/UI/SignalChainManager.cpp:433-438 | updating a list of elements keeps the chain valid |
| `SignalChain.UpdateAllKeeps` | Source/UI/SignalChainManager.cpp:433-438 | an element not in the list is left as it was |
| `SignalChain.UpdateAllSized` | Source/UI/SignalChainManager.cpp:433-438 | every ordinary element in the list ends up matching its processor |
| `SignalChain.UpdateChainConnectivity` | Source/UI/SignalChainManager.cpp:431-439 | `updateChainConnectivity` keeps the chain valid and both collections unchanged |
| `SignalChain.ConnectivitySized` | Source/UI/SignalChainManager.cpp:431-439 | afterwards every ordinary element matches its processor, and every start node is unchanged |
| `ChainSanitize.Without` | Source/UI/SignalChainManager.cpp:392 | removing entries keeps exactly the entries not removed, and introduces no duplicate |
| `ChainSanitize.WithoutNothing` | Source/UI/SignalChainManager.cpp:392 | removing nothing that occurs leaves the sequence unchanged |
| `ChainSanitize.DropElements` | Source/UI/SignalChainManager.cpp:422 | deleting elements removes exactly them and exactly the ports they own; the others keep their order and contents |
| `ChainSanitize.DropElementsValid` | Source/UI/SignalChainManager.cpp:422 | deleting elements whose ports are all unconnected keeps the chain valid |
| `ChainSanitize.Prune` | Source/UI/SignalChainManager.cpp:386-396 | the first loop of `sanitizeChain` deletes exactly the start nodes whose output is unconnected, and no other element |
| `ChainSanitize.PruneKeeps` | Source/UI/SignalChainManager.cpp:386-396 | the first loop of `sanitizeChain` keeps every ordinary element and every connected port, and leaves only start nodes whose output is connected |
| `ChainSanitize.PruneValid` | Source/UI/SignalChainManager.cpp:386-396 | deleting the start nodes whose output is unconnected keeps the chain valid |
| `ChainSanitize.PruneFixed` | Source/UI/SignalChainManager.cpp:386-396 | with every start node live, the first loop changes nothing |
| `ChainSanitize.InputsListed` | Source/UI/SignalChainManager.cpp:399-406 | the nested loops visit every input of every ordinary element and nothing else |
| `ChainSanitize.AttachStart` | Source/UI/SignalChainManager.cpp:410-413 | feeding an input adds one new start node at the end of the start nodes, connects the input, and changes no other port |
| `ChainSanitize.AttachStartIsCalls` | Source/UI/SignalChainManager.cpp:410-413 | that step is exactly `new SignalElement(nullptr)`, its addition to the start nodes, and the `connect` of its output 0 |
| `ChainSanitize.AttachStartStep` | Source/UI/SignalChainManager.cpp:410-413 | feeding an input keeps the chain valid, and the new start node's output leads to that input |
| `ChainSanitize.PatchOne` | Source/UI/SignalChainManager.cpp:406-414 | after one iteration the visited input is connected; no port changes except that input when it was free; at most one start node is appended; `m_elements` is kept |
| `ChainSanitize.PatchOneValid` | Source/UI/SignalChainManager.cpp:406-414 | one iteration keeps the chain valid, keeps every existing element, and keeps every start node live |
| `ChainSanitize.PatchPorts` | Source/UI/SignalChainManager.cpp:399-416 | the loops keep `m_elements`, every existing element id and every existing port with its class, and every port id stays below the next id to be handed out |
| `ChainSanitize.AttachStartLive` | Source/UI/SignalChainManager.cpp:410-413 | feeding an input keeps the chain valid and every start node live |
| `ChainSanitize.PatchPortsValid` | Source/UI/SignalChainManager.cpp:399-416 | the loops keep the chain valid, every existing element, and the liveness of start nodes |
| `ChainSanitize.PatchPortsConnects` | Source/UI/SignalChainManager.cpp:399-416 | the loops connect every visited input |
| `ChainSanitize.PatchPortsKeeps` | Source/UI/SignalChainManager.cpp:399-416 | the loops change no port except free visited inputs |
| `ChainSanitize.PatchPortsPrefix` | Source/UI/SignalChainManager.cpp:411 | the loops only append start nodes, each a new element |
| `ChainSanitize.PatchNothing` | Source/UI/SignalChainManager.cpp:407 | with every visited input connected the loops change nothing |
| `ChainSanitize.Sanitize` | Source/UI/SignalChainManager.cpp:383-417 | `sanitizeChain` keeps `m_elements` |
| `ChainSanitize.SanitizeValid` | Source/UI/SignalChainManager.cpp:383-417 | `sanitizeChain` keeps the chain valid |
| `ChainSanitize.SanitizeSane` | Source/UI/SignalChainManager.cpp:383-417 | afterwards every start node's output is connected and every input port (source ports included) of every ordinary element is connected |
| `ChainSanitize.SanitizeKeeps` | Source/UI/SignalChainManager.cpp:383-417 | every existing link and every ordinary element is kept |
| `ChainSanitize.SanitizeStarts` | Source/UI/SignalChainManager.cpp:383-417 | the start nodes afterwards are the old live ones in their order, followed by new ones |
| `ChainSanitize.SaneFixed` | Source/UI/SignalChainManager.cpp:383-417 | a chain that is already sane is left unchanged |
| `ChainSanitize.SanitizeIdempotent` | Source/UI/SignalChainManager.cpp:383-417 | a second call adds and removes nothing |
| `ChainEdits.SpliceAfterPorts` | Source/UI/SignalChainManager.cpp:312-316 | the port work of placing after an output keeps links symmetric and changes no port's class, owner or count |
| `ChainEdits.SpliceBeforePorts` | Source/UI/SignalChainManager.cpp:322-326 | the port work of placing before an input keeps links symmetric and changes no port's class, owner or count |
| `ChainEdits.SpliceAfterLinks` | Source/UI/SignalChainManager.cpp:312-316 | after splicing a loose element after an output, that output feeds input 0, output 0 feeds what the output fed before, and no other port changes |
| `ChainEdits.SpliceBeforeLinks` | Source/UI/SignalChainManager.cpp:322-326 | after splicing an element with an output before an input, output 0 feeds that input, what fed the input now feeds input 0, and no other port changes; an element without outputs changes nothing |
| `ChainEdits.DetachPorts` | Source/UI/SignalChainManager.cpp:366-377 | the port work of `detachElement` keeps links symmetric and changes no port's class, owner or count |
| `ChainEdits.DetachEnds` | Source/UI/SignalChainManager.cpp:366-368 | the first three calls keep links symmetric and change no port's class, owner or count |
| `ChainEdits.Bridge` | Source/UI/SignalChainManager.cpp:368 | `previous->connect(next)` keeps links symmetric and changes no port's class, owner or count |
| `ChainEdits.DetachEndsLinks` | Source/UI/SignalChainManager.cpp:366-368 | the first three calls leave input 0 and output 0 free and link their former partners to each other |
| `ChainEdits.DetachPortsLoose` | Source/UI/SignalChainManager.cpp:366-377 | after `detachElement` no port of the element is connected |
| `ChainEdits.DetachPortsBridge` | Source/UI/SignalChainManager.cpp:366-368 | what fed input 0 is linked to what output 0 fed, when both lie outside the element |
| `ChainEdits.DetachPortsFrame` | Source/UI/SignalChainManager.cpp:366-377 | every other port outside the element only loses its link into the element |
| `ChainEdits.DetachUndoesSpliceAfter` | Source/UI/SignalChainManager.cpp:312-316 | detaching undoes splicing a loose element after an output outside it, when the element has an output or the output fed nothing |
| `ChainEdits.DetachUndoesSpliceBefore` | Source/UI/SignalChainManager.cpp:322-326 | detaching undoes splicing a loose element before an input outside it |
| `ChainEdits.DetachLoose` | Source/UI/SignalChainManager.cpp:366-377 | detaching an element none of whose ports is connected changes nothing |
| `ChainManager.Splice` | Source/UI/SignalChainManager.cpp:310-328 | the port work of `placeElement` changes only links, keeping them symmetric |
| `ChainManager.SpliceValid` | Source/UI/SignalChainManager.cpp:310-328 | the splice keeps the chain valid |
| `ChainManager.PlaceElement` | Source/UI/SignalChainManager.cpp:310-328 | `placeElement` keeps `m_elements` |
| `ChainManager.PlaceSane` | Source/UI/SignalChainManager.cpp:317 | placing leaves a valid, sane chain |
| `ChainManager.PlaceAfterLinks` | Source/UI/SignalChainManager.cpp:310-318 | a detached element placed after an output sits between that output and the output's former consumer |
| `ChainManager.PlaceBeforeLinks` | Source/UI/SignalChainManager.cpp:320-328 | a detached element with an output placed before an input sits between the input's former producer and the input |
| `ChainManager.PlaceNowhere` | Source/UI/SignalChainManager.cpp:310-328 | with a null port, or before an input with an element that has no output, only `sanitizeChain` runs |
| `ChainManager.Detach` | Source/UI/SignalChainManager.cpp:361-381 | `detachElement` changes only links, keeping them symmetric |
| `ChainManager.DetachValid` | Source/UI/SignalChainManager.cpp:361-381 | detaching keeps the chain valid and the element an ordinary one |
| `ChainManager.DetachLinks` | Source/UI/SignalChainManager.cpp:361-381 | the element ends with no connected port; its input-0 producer and output-0 consumer are linked when both lie outside it; every other port only loses its link into the element |
| `ChainManager.DetachUndoesSplice` | Source/UI/SignalChainManager.cpp:361-381 | detaching a detached element right after splicing it next to a port outside it restores the chain (after an output, when the element has an output or the output fed nothing) |
| `ChainManager.RemoveProcessor` | Source/UI/SignalChainManager.cpp:419-423 | `removeProcessor` deletes exactly the element from `m_elements` and the element map, and exactly the ports it owns |
| `ChainManager.RemoveValid` | Source/UI/SignalChainManager.cpp:419-423 | `removeProcessor` keeps the chain valid without sanitizing it |
| `ChainManager.RemoveElements` | Source/UI/SignalChainManager.cpp:419-423 | the element is deleted; the other elements keep their order and contents; the start nodes are untouched |
| `ChainManager.RemoveLinks` | Source/UI/SignalChainManager.cpp:419-423 | the removed element's input-0 producer and output-0 consumer end up linked to each other when both lie outside it |
| `ChainManager.RemoveFrame` | Source/UI/SignalChainManager.cpp:419-423 | exactly the element's ports are destroyed; every other port only loses its link into it |
| `ChainManager.AddProcessor` | Source/UI/SignalChainManager.cpp:330-340 | `addProcessor` appends exactly one new element to `m_elements` |
| `ChainManager.AddSane` | Source/UI/SignalChainManager.cpp:330-340 | `addProcessor` leaves a valid chain (symmetric links, each port owned by one listed element) in which every input and every start node's output is connected |
| `ChainManager.CreatedDetached` | Source/UI/SignalChainManager.cpp:354-359 | a created element is an ordinary, detached element that lists no old port |
| `ChainManager.AddAfterLinks` | Source/UI/SignalChainManager.cpp:336-340 | a processor added after an output is fed by it and, if it has an output, feeds the output's former consumer |
| `ChainManager.AddBeforeLinks` | Source/UI/SignalChainManager.cpp:330-334 | a processor with an output added before an input feeds that input and is fed by the input's former producer |
| `ChainManager.MoveProcessor` | Source/UI/SignalChainManager.cpp:342-352 | `moveProcessor` keeps `m_elements` |
| `ChainManager.MoveSane` | Source/UI/SignalChainManager.cpp:342-352 | `moveProcessor` leaves a valid chain in which every input and every start node's output is connected |
| `ChainManager.MoveAfterLinks` | Source/UI/SignalChainManager.cpp:348-352 | a processor moved after an output outside it is fed by that output and feeds the output's consumer at that point |
| `ChainManager.MoveBeforeLinks` | Source/UI/SignalChainManager.cpp:342-346 | a processor with an output moved before an input outside it feeds that input and is fed by its producer at that point |
| `ChainManager.RelativePort` | Source/UI/SignalChainManager.cpp:282-294 | the relative overloads pick a port of the right direction owned by `other`, or null |
| `ChainManager.AddProcessorNear` | Source/UI/SignalChainManager.cpp:282-294 | adding relative to an element appends exactly one new element |
| `ChainManager.MoveProcessorNear` | Source/UI/SignalChainManager.cpp:296-308 | moving relative to an element keeps `m_elements` |
| `ChainManager.AddNearAfter` | Source/UI/SignalChainManager.cpp:284-288 | adding after an element with an output puts the new element right after that element's output 0 |
| `ChainManager.AddNearNowhere` | Source/UI/SignalChainManager.cpp:286-292 | adding relative to nothing, or before a start node (which has no input 0), only sanitizes around the new element |
| `StreamMuxer.SameGroupLaws` | Source/Plugins/StreamMuxer/StreamMuxer.cpp:7-14 | group equality is symmetric and transitive; it is reflexive exactly on groups with a rate; the default group equals nothing; the offsets play no part |
| `StreamMuxer.SameGroup` | Source/Plugins/StreamMuxer/StreamMuxer.cpp:7-10 | two groups are equal only when both have a rate; a group without a rate (NaN) equals nothing |
| `StreamMuxer.FindSame` | Source/Plugins/StreamMuxer/StreamMuxer.cpp:203-211 | the search finds the first equal group, or none when no group is equal |
| `StreamMuxer.InsertGroup` | Source/Plugins/StreamMuxer/StreamMuxer.cpp:199-218 | `insertGroup` adds at most one group, keeps the rate and count of every existing group, and a group it adds is the working group with the offset appended, only for an offset above -1 |
| `StreamMuxer.InsertGroupCases` | Source/Plugins/StreamMuxer/StreamMuxer.cpp:199-218 | `insertGroup` has three outcomes: the offset joins the first equal group; or, for an offset above -1, exactly one new group ending with it is appended; or nothing changes. It never creates two equal groups |
| `StreamMuxer.RunsStep` | Source/Plugins/StreamMuxer/StreamMuxer.cpp:65-78 | one more channel starts a new run when its source differs, lengthens the last run otherwise, and adds nothing while no run has begun |
| `StreamMuxer.RunsBounded` | Source/Plugins/StreamMuxer/StreamMuxer.cpp:60-79 | every run is non-empty, lies within the channels, starts where the source changes, and carries its first channel's rate |
| `StreamMuxer.RunsContiguous` | Source/Plugins/StreamMuxer/StreamMuxer.cpp:60-79 | runs follow one another without a gap, and the last one ends at the last channel |
| `StreamMuxer.RunsMaximal` | Source/Plugins/StreamMuxer/StreamMuxer.cpp:60-79 | no channel inside a run changes source |
| `StreamMuxer.RunsLeading` | Source/Plugins/StreamMuxer/StreamMuxer.cpp:56-65 | the channels before the first run come from node 0, sub-processor 0, so they form no run |
| `StreamMuxer.RunsShape` | Source/Plugins/StreamMuxer/StreamMuxer.cpp:56-79 | the runs together: bounded, maximal, contiguous up to the last channel, and preceded only by channels of node 0, sub-processor 0 |
| `StreamMuxer.RunsIncrease` | Source/Plugins/StreamMuxer/StreamMuxer.cpp:60-79 | run starts strictly increase |
| `StreamMuxer.StartsAreRuns` | Source/Plugins/StreamMuxer/StreamMuxer.cpp:65-77 | every channel whose source differs from the one before starts a run |
| `StreamMuxer.RunIsRunAt` | Source/Plugins/StreamMuxer/StreamMuxer.cpp:60-79 | every run is a maximal stretch of channels from one source |
| `StreamMuxer.BucketSound` | Source/Plugins/StreamMuxer/StreamMuxer.cpp:70-80 | every group holds an offset, and every offset starts a run whose length and rate are the group's |
| `StreamMuxer.BucketComplete` | Source/Plugins/StreamMuxer/StreamMuxer.cpp:70-80 | every run's start is recorded in some group |
| `StreamMuxer.BucketOrdered` | Source/Plugins/StreamMuxer/StreamMuxer.cpp:70-80 | offsets strictly increase within a group, and no offset is in two groups |
| `StreamMuxer.BucketDistinct` | Source/Plugins/StreamMuxer/StreamMuxer.cpp:203-217 | no two groups are equal under `==` |
| `StreamMuxer.GroupingFacts` | Source/Plugins/StreamMuxer/StreamMuxer.cpp:55-80 | the groups are pairwise unequal and each holds an offset; each offset starts a maximal run whose length is the group's count and whose first rate is the group's rate, so offset plus count never exceeds the number of inputs; offsets increase within a group and are never shared; every source change is recorded |
| `StreamMuxer.GroupChannels` | Source/Plugins/StreamMuxer/StreamMuxer.cpp:53-80 | the loop as written computes the reference grouping |
| `StreamMuxer.NewMuxer` | Source/Plugins/StreamMuxer/StreamMuxer.cpp:20-25 | the constructor selects group -1 and stream -1, with the flag clear |
| `StreamMuxer.Saved` | Source/Plugins/StreamMuxer/StreamMuxer.cpp:46-51 | the saved group has the selected group's rate and count when the index is in range, and otherwise equals no group |
| `StreamMuxer.Revalidate` | Source/Plugins/StreamMuxer/StreamMuxer.cpp:83-98 | the group is kept when its index is in range and the group there equals the saved one; the stream is then reset to 0 exactly when it is positive and not below the group's offset count; otherwise group 0 and stream 0 are selected |
| `StreamMuxer.UpdateSettings` | Source/Plugins/StreamMuxer/StreamMuxer.cpp:39-190 | the flag is always clear afterwards; with the selection in range, `numOutputs` and the output channel count both equal the group's channel count; otherwise there are no outputs and `numOutputs` is unchanged; with the flag set, groups and selection are kept, and without it the groups are regrouped from the inputs |
| `StreamMuxer.SetParameter` | Source/Plugins/StreamMuxer/StreamMuxer.cpp:220-231 | index 0 sets the group and the flag, index 1 sets the stream, any other index changes nothing |
| `StreamMuxer.UpstreamSelection` | Source/Plugins/StreamMuxer/StreamMuxer.cpp:83-98 | after an upstream update the group is kept exactly when its index is in range before and after and the group there has the same (set) rate and count; otherwise group 0 and stream 0 |
| `StreamMuxer.UpstreamSelectionValid` | Source/Plugins/StreamMuxer/StreamMuxer.cpp:124-145 | after an upstream update with at least one group, the selection is in range, the stream is below the group's stream count, the outputs match the group's count, and every copied channel index is within the inputs |
| `StreamMuxer.SelectThenUpdate` | Source/Plugins/StreamMuxer/StreamMuxer.cpp:43 | a group selection and its update keep the old groups and the chosen index whatever it is; the stream is untouched and the flag ends clear |
| `StreamMuxer.StreamThenUpdate` | Source/Plugins/StreamMuxer/StreamMuxer.cpp:227-230 | selecting a stream does not set the flag, so the next update regroups |
| `StreamMuxer.FirstUpdate` | Source/Plugins/StreamMuxer/StreamMuxer.cpp:93-98 | the first update after construction selects group 0 and stream 0 |
| `StreamMuxer.UpdateIdempotent` | Source/Plugins/StreamMuxer/StreamMuxer.cpp:43-98 | a second upstream update on the same inputs changes nothing, NaN rates included |
| `StreamMuxer.IdArrayAsWritten` | Source/Plugins/StreamMuxer/StreamMuxer.cpp:149-157 | as written, the source-id writes fit in `idArray` exactly when the group has no more streams than channels |
| `StreamMuxer.IdArrayOverflows` | Source/Plugins/StreamMuxer/StreamMuxer.cpp:149-157 | two one-channel streams from different sources at one rate form a single group whose source-id writes overrun `idArray` as written |
| `StreamMuxer.IdArrayFits` | Source/Plugins/StreamMuxer/StreamMuxer.cpp:149-157 | with two slots per stream every write fits, and no smaller array holds them |

## Left out

- `Ports.Disconnect`: on an unconnected port the code writes through a null partner. The model does nothing there (see Findings).
- `ChainEdits.SpliceAfterPorts`: when `afterPort` fed nothing, the code calls `connect` on a null `old` (cpp 315). The model skips that call. For an element without outputs, `old->connect(nullptr)` is a no-op on the just-disconnected `old`, and the model does the same.
- `ChainEdits.SpliceBeforePorts`: the code dereferences null in two cases, when the element has no output 0 (cpp 324) and when `beforePort` was fed by nothing (cpp 325). The model skips those calls.
- `ChainEdits.DetachPorts`: when input 0 was fed by nothing, the code calls `connect` on a null `previous` (cpp 368). The model skips the bridge. For an element without outputs, `getOutPort(0)` is null and cpp 367 dereferences it; the model skips that call. When `next` is null, `previous->connect(nullptr)` returns at once on the just-disconnected `previous`, and the model does the same.
- `SignalElements.UpdateChannelCounts` requires at least as many output ports as streams. The code indexes the port array by stream, and beyond its end `OwnedArray` returns null and the call crashes.
- `ChainManager.PlaceAfterLinks`, `ChainManager.PlaceBeforeLinks` and the add/move variants assume the target port lies outside the element. The code does not check this. The excluded inputs place a detached element at one of its own ports, which is free, so `connect` returns a null `old` and the source dereferences it (cpp 315 after an output, cpp 325 before an input).
- The connect header comment says `connect` returns the port the destination was connected to. The code returns the caller's former partner (cpp 69, 74), and the model follows the code.
- `updateProcessorSettings` has an empty body, and `updateSignalChain` only calls it after `updateChainConnectivity`. No settings propagation is modelled.
- `connectProcessor` is declared but never defined.
- The `Port` move constructor and move assignment are object-lifetime plumbing and are not modelled.
- The processor (`GenericProcessor`) is not part of this model. `updateStreamCount`, `getNumInputStreams`, `getNumStreams` and `getNumOutputs` enter as the `infoOf` parameter. The `m_signalElement` back-pointer is replaced by addressing elements by id.
- Two compile-level defects are modelled as intended:
  - `acceptsConnections` is used without `()` at cpp 194 and 212;
  - `m_startNodes` is declared as `OwnedArray<OutPort>` but used as a collection of elements.
- The header declares `SignalElement::update`; the code defines `updateConnections` and `updateChannelCounts`, and those are what is modelled.
- `porNum` of the relative `addProcessor`/`moveProcessor` overloads is never read. The model takes it and ignores it.
- In the stream muxer, the model leaves out building the output `DataChannel`s and the `EventChannel`, the historic strings, the metadata values, bit volts, and the editor call (cpp 100, 141-197). It keeps the output channel count and the size of `idArray` against its writes (see Findings).
- `m_selectedSampleRate` and the float sample rates are not modelled: rates are an opaque `Rate`.
- `setParameter` takes a float and converts it to an integer; the model takes the integer. `m_selectedStream` is an `Atomic<int>`; the model treats it as a plain integer. Concurrency is not modelled.
- `StreamMuxer::process` (cpp 233-248) is an audio-buffer copy and is not modelled. Note that it indexes the offsets by the selected stream, which `setParameter(1, v)` may leave negative or out of range. Re-validation keeps a negative stream, because it only resets a positive one.
- MultiStreamTester is not part of this model: it is a data-generating thread built on clocks, waveforms and buffers.

## Findings

| source | as written | input that shows it | evidently intended | confidence | as-written member | corrected member |
|---|---|---|---|---|---|---|
| Source/UI/SignalChainManager.cpp:43-49 | `disconnect` clears the partner's back pointer without checking that there is a partner; `connect` calls it on both ends unconditionally (cpp 70-71) | `sanitizeChain` feeding a dangling input: `start->getOutPort(0)->connect(port)` on a new, free output and a free input dereferences null | disconnecting an unconnected port does nothing and returns null, so connecting two free ports just links them | not executed | `Ports.FreshConnectCrashes` | `Ports.Connect` |
| Source/Plugins/StreamMuxer/StreamMuxer.cpp:149-157 | `idArray` gets two slots per channel of the selected group (cpp 150), but the loop writes two per stream (cpp 155-156) | two one-channel inputs from nodes 1 and 2 at one rate: one group, one channel, two streams, so the writes need 4 slots and 2 are allocated | allocate `numStreams * 2` slots, one node id and one sub-processor index per stream | not executed | `StreamMuxer.IdArrayOverflows` | `StreamMuxer.IdArrayFits` |

For the first row: the same unguarded `disconnect` also runs in `~Port` (cpp 33-36). That happens whenever a
free port is destroyed: the pruned start nodes of `sanitizeChain` and every port of an
element removed by `removeProcessor`. `Ports.ConnectAsWrittenFails` characterises exactly
when `connect` fails as written. The rest of the model uses the corrected `Disconnect` and
`Connect`. For the second row, `StreamMuxer.IdArrayAsWritten` gives the general condition: as
written, the writes fit exactly when a group has no more streams than channels.

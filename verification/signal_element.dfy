/**
  `SignalElement`: one node of the signal chain. It wraps a processor (or none, for a start
  node) and exclusively owns ordered arrays of input and output ports, which
  `UpdateConnections` resizes to the processor's current stream counts.
 */
module SignalElements {
  import opened Wrappers
  import opened Ports

  type ProcId = nat

  /** What an element reads of its `GenericProcessor`: the number of input streams it needs
      and, for each output stream, that stream's channel count. */
  datatype ProcInfo = ProcInfo(numInputStreams: nat, streamChannels: seq<nat>)

  /** A processor-less element is a start node. */
  datatype Element = Element(processor: Option<ProcId>, inPorts: seq<PortId>, outPorts: seq<PortId>)
  {
    predicate IsStart() { processor.None? }
    predicate Lists(p: PortId) { p in inPorts || p in outPorts }
  }

  /** The port arena and the next unused port id, after an edit of one port array. */
  datatype Listed = Listed(ports: PortMap, ids: seq<PortId>, nextPort: nat)

  /** The port arena, the element and the next unused port id after `UpdateConnections`. */
  datatype Resized = Resized(ports: PortMap, element: Element, nextPort: nat)

  predicate NoDup<T(==)>(s: seq<T>) {
    forall i, j | 0 <= i < j < |s| :: s[i] != s[j]
  }

  /** Every id in use is below `next`. */
  ghost predicate Fresh(pm: PortMap, next: nat) {
    forall p | p in pm :: p < next
  }

  /** Element `e` owns exactly the ports its arrays list: inputs in `inPorts`, outputs in
      `outPorts`, no port listed twice. */
  ghost predicate Owns(pm: PortMap, e: ElemId, el: Element) {
    && (forall i | 0 <= i < |el.inPorts| ::
          el.inPorts[i] in pm && pm[el.inPorts[i]].owner == e && pm[el.inPorts[i]].IsInput())
    && (forall i | 0 <= i < |el.outPorts| ::
          el.outPorts[i] in pm && pm[el.outPorts[i]].owner == e && pm[el.outPorts[i]].kind == Out)
    && NoDup(el.inPorts) && NoDup(el.outPorts)
    && (forall p | p in pm && pm[p].owner == e :: el.Lists(p))
  }

  /** A source port only ever appears as an element's sole input. */
  ghost predicate SourceAlone(pm: PortMap, ins: seq<PortId>) {
    forall i | 0 <= i < |ins| && ins[i] in pm && pm[ins[i]].kind == Source :: |ins| == 1
  }

  /** The frame every edit of one port array of element `e` keeps: only listed ports may be
      destroyed, new ports are fresh, unconnected, of the given kind, owned by `e` and listed. */
  ghost predicate ListStep(pm: PortMap, ids: seq<PortId>, next: nat, e: ElemId, kind: Kind, r: Listed) {
    && Symmetric(r.ports) && Fresh(r.ports, r.nextPort) && next <= r.nextPort
    && KeepsLinks(pm, r.ports)
    && (forall p | p in pm && p !in ids :: p in r.ports)
    && (forall p | p in r.ports && p !in pm ::
          next <= p && r.ports[p] == Port(kind, None, e, 0) && p in r.ids)
    && (forall p | p in ids && p in r.ports :: p in r.ids)
    && (forall i | 0 <= i < |r.ids| :: r.ids[i] in r.ports && (r.ids[i] in ids || r.ids[i] !in pm))
    && NoDup(r.ids)
  }

  /** The ids `next`, ..., `next + k - 1`. */
  function Range(next: nat, k: nat): (r: seq<PortId>)
    ensures |r| == k
    ensures forall i | 0 <= i < k :: r[i] == next + i
  {
    seq(k, i requires 0 <= i => next + i)
  }

  /** Appends `k` new unconnected ports (`m_inputPorts.add(new InPort())` and the like). */
  function AddPorts(pm: PortMap, ids: seq<PortId>, k: nat, next: nat, e: ElemId, kind: Kind): (r: Listed)
    ensures r.ids == ids + Range(next, k) && r.nextPort == next + k
  {
    var added := Range(next, k);
    Listed(pm + map i | i in added :: Port(kind, None, e, 0), ids + added, next + k)
  }

  lemma AddPortsStep(pm: PortMap, ids: seq<PortId>, k: nat, next: nat, e: ElemId, kind: Kind)
    requires Symmetric(pm) && Fresh(pm, next) && NoDup(ids)
    requires forall i | 0 <= i < |ids| :: ids[i] in pm
    ensures ListStep(pm, ids, next, e, kind, AddPorts(pm, ids, k, next, e, kind))
    ensures forall p | p in pm :: p in AddPorts(pm, ids, k, next, e, kind).ports
                                 && AddPorts(pm, ids, k, next, e, kind).ports[p] == pm[p]
  {
  }

  /** `removeLast`: destroys every port from index `n` on. */
  function Truncate(pm: PortMap, ids: seq<PortId>, n: nat, next: nat): (r: Listed)
    requires Symmetric(pm) && n <= |ids|
    ensures r.ids == ids[..n] && r.nextPort == next
  {
    Listed(RemovePorts(pm, ids[n..]), ids[..n], next)
  }

  lemma TruncateStep(pm: PortMap, ids: seq<PortId>, n: nat, next: nat, e: ElemId, kind: Kind)
    requires Symmetric(pm) && Fresh(pm, next) && NoDup(ids) && n <= |ids|
    requires forall i | 0 <= i < |ids| :: ids[i] in pm
    ensures ListStep(pm, ids, next, e, kind, Truncate(pm, ids, n, next))
  {
    var r := Truncate(pm, ids, n, next);
    var gone := ids[n..];
    assert forall p | p in r.ports :: p in pm;
    forall p | p in pm && p in r.ports
      ensures Unlinked(pm[p].partner, gone) == Cleared(pm[p].partner, r.ports)
    {
    }
    forall i | 0 <= i < n ensures ids[i] in r.ports {
      assert forall j | n <= j < |ids| :: ids[j] != ids[i];
    }
  }

  /** `m_inputPorts.remove(0)`: destroys the first port. */
  function DropFirst(pm: PortMap, ids: seq<PortId>, next: nat): (r: Listed)
    requires Symmetric(pm) && |ids| > 0
    ensures r.ids == ids[1..] && r.nextPort == next
  {
    Listed(RemovePorts(pm, ids[..1]), ids[1..], next)
  }

  lemma DropFirstStep(pm: PortMap, ids: seq<PortId>, next: nat, e: ElemId, kind: Kind)
    requires Symmetric(pm) && Fresh(pm, next) && NoDup(ids) && |ids| > 0
    requires forall i | 0 <= i < |ids| :: ids[i] in pm
    ensures ListStep(pm, ids, next, e, kind, DropFirst(pm, ids, next))
  {
    assert forall i | 1 <= i < |ids| :: ids[i] != ids[0];
  }

  /** Truncates the array to `n` ports, destroying the rest, or grows it with new ports. */
  function Resize(pm: PortMap, ids: seq<PortId>, n: nat, next: nat, e: ElemId, kind: Kind): (r: Listed)
    requires Symmetric(pm)
    ensures |r.ids| == n
    ensures forall i | 0 <= i < n && i < |ids| :: r.ids[i] == ids[i]
  {
    if n < |ids| then Truncate(pm, ids, n, next)
    else AddPorts(pm, ids, n - |ids|, next, e, kind)
  }

  lemma ResizeStep(pm: PortMap, ids: seq<PortId>, n: nat, next: nat, e: ElemId, kind: Kind)
    requires Symmetric(pm) && Fresh(pm, next) && NoDup(ids)
    requires forall i | 0 <= i < |ids| :: ids[i] in pm
    ensures ListStep(pm, ids, next, e, kind, Resize(pm, ids, n, next, e, kind))
    ensures forall i | |ids| <= i < n :: Resize(pm, ids, n, next, e, kind).ids[i] !in pm
  {
    if n < |ids| {
      TruncateStep(pm, ids, n, next, e, kind);
    } else {
      AddPortsStep(pm, ids, n - |ids|, next, e, kind);
    }
  }

  /** Two edits of the same port array in a row are again such an edit. */
  lemma ListStepsCompose(pm: PortMap, ids: seq<PortId>, next: nat, e: ElemId, kind: Kind, r1: Listed, r2: Listed)
    requires Symmetric(pm) && Fresh(pm, next)
    requires ListStep(pm, ids, next, e, kind, r1)
    requires ListStep(r1.ports, r1.ids, r1.nextPort, e, kind, r2)
    ensures ListStep(pm, ids, next, e, kind, r2)
  {
    assert forall p | p in pm && p in r2.ports :: p in r1.ports;
  }

  /** The inputs that survive the removal of a leading source port. */
  function Kept(pm: PortMap, ids: seq<PortId>): seq<PortId>
    requires forall i | 0 <= i < |ids| :: ids[i] in pm
  {
    if |ids| > 0 && !pm[ids[0]].AcceptsConnections() then ids[1..] else ids
  }

  /** Inputs of an element whose processor needs `n > 0` streams: a leading source port
      is destroyed, then the array is truncated or grown to `n` ordinary inputs. */
  function GrowInputs(pm: PortMap, ids: seq<PortId>, n: nat, next: nat, e: ElemId): (r: Listed)
    requires Symmetric(pm)
    requires forall i | 0 <= i < |ids| :: ids[i] in pm
    ensures |r.ids| == n
    ensures forall i | 0 <= i < n && i < |Kept(pm, ids)| :: r.ids[i] == Kept(pm, ids)[i]
  {
    if |ids| > 0 && !pm[ids[0]].AcceptsConnections() then
      var t := DropFirst(pm, ids, next);
      Resize(t.ports, t.ids, n, next, e, In)
    else
      Resize(pm, ids, n, next, e, In)
  }

  lemma GrowInputsStep(pm: PortMap, ids: seq<PortId>, n: nat, next: nat, e: ElemId)
    requires Symmetric(pm) && Fresh(pm, next) && NoDup(ids)
    requires forall i | 0 <= i < |ids| :: ids[i] in pm && pm[ids[i]].IsInput()
    ensures var r := GrowInputs(pm, ids, n, next, e);
      && ListStep(pm, ids, next, e, In, r)
      && (forall i | |Kept(pm, ids)| <= i < n :: r.ids[i] !in pm)
      && (SourceAlone(pm, ids) ==> forall i | 0 <= i < n :: r.ports[r.ids[i]].kind == In)
  {
    var kept := Kept(pm, ids);
    var r := GrowInputs(pm, ids, n, next, e);
    if |ids| > 0 && !pm[ids[0]].AcceptsConnections() {
      var t := DropFirst(pm, ids, next);
      DropFirstStep(pm, ids, next, e, In);
      ResizeStep(t.ports, t.ids, n, next, e, In);
      ListStepsCompose(pm, ids, next, e, In, t, r);
    } else {
      ResizeStep(pm, ids, n, next, e, In);
    }
    KeptOrdinary(pm, ids);
    if SourceAlone(pm, ids) {
      forall i | 0 <= i < n ensures r.ports[r.ids[i]].kind == In {
        if i < |kept| { assert r.ids[i] == kept[i]; }
      }
    }
  }

  /** When a source port can only be a sole input, what survives its removal is ordinary. */
  lemma KeptOrdinary(pm: PortMap, ids: seq<PortId>)
    requires forall i | 0 <= i < |ids| :: ids[i] in pm && pm[ids[i]].IsInput()
    ensures SourceAlone(pm, ids) ==>
              forall i | 0 <= i < |Kept(pm, ids)| :: pm[Kept(pm, ids)[i]].kind == In
  {
    if SourceAlone(pm, ids) && |ids| > 0 && !pm[ids[0]].AcceptsConnections() {
      assert |ids| == 1;
    }
  }

  /** Inputs of an element whose processor needs no stream: an existing leading source port
      is kept, otherwise the array becomes a single new source port. */
  function SourceInputs(pm: PortMap, ids: seq<PortId>, next: nat, e: ElemId): (r: Listed)
    requires Symmetric(pm)
    requires forall i | 0 <= i < |ids| :: ids[i] in pm && pm[ids[i]].IsInput()
    ensures |ids| > 0 && pm[ids[0]].kind == Source ==> r == Listed(pm, ids, next)
    ensures !(|ids| > 0 && pm[ids[0]].kind == Source) ==> |r.ids| == 1
  {
    if |ids| > 0 && pm[ids[0]].AcceptsConnections() then
      var t := Truncate(pm, ids, 0, next);
      AddPorts(t.ports, [], 1, next, e, Source)
    else if |ids| > 0 then
      assert pm[ids[0]].IsInput();
      Listed(pm, ids, next)
    else
      AddPorts(pm, [], 1, next, e, Source)
  }

  lemma SourceInputsStep(pm: PortMap, ids: seq<PortId>, next: nat, e: ElemId)
    requires Symmetric(pm) && Fresh(pm, next) && NoDup(ids)
    requires forall i | 0 <= i < |ids| :: ids[i] in pm && pm[ids[i]].IsInput()
    ensures var r := SourceInputs(pm, ids, next, e);
      && ListStep(pm, ids, next, e, Source, r)
      && (!(|ids| > 0 && pm[ids[0]].kind == Source) ==>
            r.ids[0] !in pm && r.ports[r.ids[0]].kind == Source)
  {
    var r := SourceInputs(pm, ids, next, e);
    if |ids| > 0 && pm[ids[0]].AcceptsConnections() {
      var t := Truncate(pm, ids, 0, next);
      TruncateStep(pm, ids, 0, next, e, Source);
      AddPortsStep(t.ports, [], 1, next, e, Source);
      ListStepsCompose(pm, ids, next, e, Source, t, r);
    } else if |ids| == 0 {
      AddPortsStep(pm, [], 1, next, e, Source);
    }
  }

  /** The frame `updateConnections` keeps: `e` owns exactly its new arrays, only `e`'s ports
      are destroyed, links into destroyed ports are cleared, and every new port is
      unconnected, owned by `e` and has no channels. */
  ghost predicate ElementStep(pm: PortMap, next: nat, e: ElemId, el: Element, r: Resized) {
    && Symmetric(r.ports) && Fresh(r.ports, r.nextPort) && next <= r.nextPort
    && Owns(r.ports, e, r.element) && r.element.processor == el.processor
    && KeepsLinks(pm, r.ports)
    && (forall p | p in pm && pm[p].owner != e :: p in r.ports)
    && (forall p | p in r.ports && p !in pm ::
          next <= p && r.ports[p].owner == e && r.ports[p].partner.None? && r.ports[p].numChannels == 0)
  }

  /** An edit of the input array followed by an edit of the output array is an
      `ElementStep`. */
  lemma ElementStepsCompose(pm: PortMap, next: nat, e: ElemId, el: Element, k: Kind, r1: Listed, r2: Listed)
    requires Symmetric(pm) && Fresh(pm, next) && Owns(pm, e, el) && k != Out
    requires ListStep(pm, el.inPorts, next, e, k, r1)
    requires ListStep(r1.ports, el.outPorts, r1.nextPort, e, Out, r2)
    ensures ElementStep(pm, next, e, el, Resized(r2.ports, Element(el.processor, r1.ids, r2.ids), r2.nextPort))
  {
    ComposedOwns(pm, next, e, el, k, r1, r2);
    ComposedFrame(pm, next, e, el, k, r1, r2);
  }

  lemma ComposedOwns(pm: PortMap, next: nat, e: ElemId, el: Element, k: Kind, r1: Listed, r2: Listed)
    requires Symmetric(pm) && Fresh(pm, next) && Owns(pm, e, el) && k != Out
    requires ListStep(pm, el.inPorts, next, e, k, r1)
    requires ListStep(r1.ports, el.outPorts, r1.nextPort, e, Out, r2)
    ensures Owns(r2.ports, e, Element(el.processor, r1.ids, r2.ids))
  {
    ComposedInputs(pm, next, e, el, k, r1, r2);
    ComposedOutputs(pm, next, e, el, k, r1, r2);
    ComposedListed(pm, next, e, el, k, r1, r2);
  }

  lemma ComposedInputs(pm: PortMap, next: nat, e: ElemId, el: Element, k: Kind, r1: Listed, r2: Listed)
    requires Symmetric(pm) && Fresh(pm, next) && Owns(pm, e, el) && k != Out
    requires ListStep(pm, el.inPorts, next, e, k, r1)
    requires ListStep(r1.ports, el.outPorts, r1.nextPort, e, Out, r2)
    ensures forall i | 0 <= i < |r1.ids| ::
              r1.ids[i] in r2.ports && r2.ports[r1.ids[i]].owner == e && r2.ports[r1.ids[i]].IsInput()
  {
    forall i | 0 <= i < |r1.ids|
      ensures r1.ids[i] in r2.ports && r2.ports[r1.ids[i]].owner == e && r2.ports[r1.ids[i]].IsInput()
    {
      var x := r1.ids[i];
      assert x !in el.outPorts by {
        if x in el.inPorts {
          assert pm[x].IsInput();
        }
      }
    }
  }

  lemma ComposedOutputs(pm: PortMap, next: nat, e: ElemId, el: Element, k: Kind, r1: Listed, r2: Listed)
    requires Symmetric(pm) && Fresh(pm, next) && Owns(pm, e, el) && k != Out
    requires ListStep(pm, el.inPorts, next, e, k, r1)
    requires ListStep(r1.ports, el.outPorts, r1.nextPort, e, Out, r2)
    ensures forall i | 0 <= i < |r2.ids| :: r2.ports[r2.ids[i]].owner == e && r2.ports[r2.ids[i]].kind == Out
  {
    forall i | 0 <= i < |r2.ids|
      ensures r2.ports[r2.ids[i]].owner == e && r2.ports[r2.ids[i]].kind == Out
    {
      var x := r2.ids[i];
      if x in el.outPorts {
        assert x in pm && x in r1.ports;
      }
    }
  }

  lemma ComposedListed(pm: PortMap, next: nat, e: ElemId, el: Element, k: Kind, r1: Listed, r2: Listed)
    requires Symmetric(pm) && Fresh(pm, next) && Owns(pm, e, el) && k != Out
    requires ListStep(pm, el.inPorts, next, e, k, r1)
    requires ListStep(r1.ports, el.outPorts, r1.nextPort, e, Out, r2)
    ensures forall p | p in r2.ports && r2.ports[p].owner == e :: p in r1.ids || p in r2.ids
  {
    forall p | p in r2.ports && r2.ports[p].owner == e
      ensures p in r1.ids || p in r2.ids
    {
      if p in pm {
        assert p in r1.ports;
      } else if p in r1.ports {
        assert p in r1.ids;
      }
    }
  }

  lemma ComposedFrame(pm: PortMap, next: nat, e: ElemId, el: Element, k: Kind, r1: Listed, r2: Listed)
    requires Symmetric(pm) && Fresh(pm, next) && Owns(pm, e, el) && k != Out
    requires ListStep(pm, el.inPorts, next, e, k, r1)
    requires ListStep(r1.ports, el.outPorts, r1.nextPort, e, Out, r2)
    ensures KeepsLinks(pm, r2.ports)
    ensures forall p | p in pm && pm[p].owner != e :: p in r2.ports
    ensures forall p | p in r2.ports && p !in pm ::
              next <= p && r2.ports[p].owner == e && r2.ports[p].partner.None? && r2.ports[p].numChannels == 0
  {
    var pm2 := r2.ports;
    assert forall p | p in pm && p in pm2 :: p in r1.ports;
    forall p | p in pm && pm[p].owner != e ensures p in pm2 {
      assert p !in el.inPorts;
      assert p in r1.ports;
    }
  }

  /** What `updateConnections` does to the input array `ids` of an element whose processor
      needs `n` input streams; `ins` is the new array and `ports` the new arena. */
  ghost predicate InputsResized(pm: PortMap, ids: seq<PortId>, n: nat, ins: seq<PortId>, ports: PortMap)
    requires forall i | 0 <= i < |ids| :: ids[i] in pm
    requires forall i | 0 <= i < |ins| :: ins[i] in ports
  {
    && |ins| >= 1
    && (n > 0 ==>
          && |ins| == n
          && (forall i | 0 <= i < |ins| && i < |Kept(pm, ids)| :: ins[i] == Kept(pm, ids)[i])
          && (forall i | |Kept(pm, ids)| <= i < |ins| :: ins[i] !in pm)
          && (SourceAlone(pm, ids) ==> forall i | 0 <= i < |ins| :: ports[ins[i]].kind == In))
    && (n == 0 ==>
          if |ids| > 0 && pm[ids[0]].kind == Source then ins == ids
          else |ins| == 1 && ins[0] !in pm && ports[ins[0]].kind == Source)
  }

  /** The input half of `updateConnections`. */
  function UpdateInputs(pm: PortMap, ids: seq<PortId>, n: nat, next: nat, e: ElemId): (r: Listed)
    requires Symmetric(pm)
    requires forall i | 0 <= i < |ids| :: ids[i] in pm && pm[ids[i]].IsInput()
    ensures n > 0 ==> |r.ids| == n
    ensures n == 0 ==> |r.ids| > 0
    ensures n == 0 && |ids| > 0 && pm[ids[0]].kind == Source ==> r == Listed(pm, ids, next)
  {
    if n > 0 then GrowInputs(pm, ids, n, next, e) else SourceInputs(pm, ids, next, e)
  }

  lemma UpdateInputsStep(pm: PortMap, ids: seq<PortId>, n: nat, next: nat, e: ElemId)
    requires Symmetric(pm) && Fresh(pm, next) && NoDup(ids)
    requires forall i | 0 <= i < |ids| :: ids[i] in pm && pm[ids[i]].IsInput()
    ensures var r := UpdateInputs(pm, ids, n, next, e);
      && ListStep(pm, ids, next, e, if n > 0 then In else Source, r)
      && InputsResized(pm, ids, n, r.ids, r.ports)
      && (SourceAlone(pm, ids) ==> SourceAlone(r.ports, r.ids))
  {
    if n > 0 { GrowInputsStep(pm, ids, n, next, e); } else { SourceInputsStep(pm, ids, next, e); }
  }

  /** The facts about the new input array survive a later edit that keeps port kinds. */
  lemma InputsResizedTransfer(pm: PortMap, ids: seq<PortId>, n: nat, ins: seq<PortId>, p1: PortMap, p2: PortMap)
    requires forall i | 0 <= i < |ids| :: ids[i] in pm
    requires forall i | 0 <= i < |ins| :: ins[i] in p1 && ins[i] in p2 && p2[ins[i]].kind == p1[ins[i]].kind
    requires InputsResized(pm, ids, n, ins, p1)
    ensures InputsResized(pm, ids, n, ins, p2)
    ensures SourceAlone(p1, ins) ==> SourceAlone(p2, ins)
  {
  }

  /** What `updateConnections` does to the arrays of an element with a processor. */
  ghost predicate ProcessorResized(pm: PortMap, el: Element, info: ProcInfo, r: Resized)
    requires forall i | 0 <= i < |el.inPorts| :: el.inPorts[i] in pm
    requires forall i | 0 <= i < |r.element.inPorts| :: r.element.inPorts[i] in r.ports
  {
    var outs := r.element.outPorts;
    && InputsResized(pm, el.inPorts, info.numInputStreams, r.element.inPorts, r.ports)
    && |outs| == |info.streamChannels|
    && (forall i | 0 <= i < |outs| && i < |el.outPorts| :: outs[i] == el.outPorts[i])
    && (forall i | |el.outPorts| <= i < |outs| :: outs[i] !in pm)
  }

  /** What `updateConnections` does to the arrays of a start node. */
  ghost predicate StartResized(pm: PortMap, el: Element, r: Resized) {
    && r.element.inPorts == [] && |r.element.outPorts| == 1
    && (|el.outPorts| == 1 ==> r.element.outPorts == el.outPorts)
    && (|el.outPorts| != 1 ==> r.element.outPorts[0] !in pm)
  }

  function ProcessorPorts(pm: PortMap, next: nat, e: ElemId, el: Element, info: ProcInfo): (r: Resized)
    requires Symmetric(pm) && Fresh(pm, next) && Owns(pm, e, el)
    ensures r.element.processor == el.processor
    ensures |r.element.outPorts| == |info.streamChannels|
  {
    var ins := UpdateInputs(pm, el.inPorts, info.numInputStreams, next, e);
    UpdateInputsStep(pm, el.inPorts, info.numInputStreams, next, e);
    var outs := Resize(ins.ports, el.outPorts, |info.streamChannels|, ins.nextPort, e, Out);
    Resized(outs.ports, Element(el.processor, ins.ids, outs.ids), outs.nextPort)
  }

  lemma ProcessorPortsStep(pm: PortMap, next: nat, e: ElemId, el: Element, info: ProcInfo)
    requires Symmetric(pm) && Fresh(pm, next) && Owns(pm, e, el)
    ensures var r := ProcessorPorts(pm, next, e, el, info);
      && ElementStep(pm, next, e, el, r)
      && (SourceAlone(pm, el.inPorts) ==> SourceAlone(r.ports, r.element.inPorts))
      && ProcessorResized(pm, el, info, r)
  {
    var n := info.numInputStreams;
    var ins := UpdateInputs(pm, el.inPorts, n, next, e);
    UpdateInputsStep(pm, el.inPorts, n, next, e);
    var outs := Resize(ins.ports, el.outPorts, |info.streamChannels|, ins.nextPort, e, Out);
    assert ListStep(ins.ports, el.outPorts, ins.nextPort, e, Out, outs) by {
      assert forall i | 0 <= i < |el.outPorts| :: el.outPorts[i] in ins.ports;
      ResizeStep(ins.ports, el.outPorts, |info.streamChannels|, ins.nextPort, e, Out);
    }
    assert ElementStep(pm, next, e, el, ProcessorPorts(pm, next, e, el, info)) by {
      ElementStepsCompose(pm, next, e, el, if n > 0 then In else Source, ins, outs);
    }
    ProcessorOutputs(pm, next, e, el, info);
    InputsResizedTransfer(pm, el.inPorts, n, ins.ids, ins.ports, outs.ports);
  }

  /** The output array of `ProcessorPorts`: the old ports in order, then new ones. */
  lemma ProcessorOutputs(pm: PortMap, next: nat, e: ElemId, el: Element, info: ProcInfo)
    requires Symmetric(pm) && Fresh(pm, next) && Owns(pm, e, el)
    ensures var outs := ProcessorPorts(pm, next, e, el, info).element.outPorts;
      forall i | |el.outPorts| <= i < |outs| :: outs[i] !in pm
  {
    var n := info.numInputStreams;
    var ins := UpdateInputs(pm, el.inPorts, n, next, e);
    UpdateInputsStep(pm, el.inPorts, n, next, e);
    assert forall i | 0 <= i < |el.outPorts| :: el.outPorts[i] in ins.ports;
    ResizeStep(ins.ports, el.outPorts, |info.streamChannels|, ins.nextPort, e, Out);
  }

  function StartPorts(pm: PortMap, next: nat, e: ElemId, el: Element): (r: Resized)
    requires Symmetric(pm) && Fresh(pm, next) && Owns(pm, e, el)
    ensures r.element == Element(None, [], r.element.outPorts) && |r.element.outPorts| == 1
  {
    var ins := Truncate(pm, el.inPorts, 0, next);
    TruncateStep(pm, el.inPorts, 0, next, e, Source);
    var outs := StartOutput(ins.ports, el.outPorts, next, e);
    Resized(outs.ports, Element(None, [], outs.ids), outs.nextPort)
  }

  lemma StartPortsStep(pm: PortMap, next: nat, e: ElemId, el: Element)
    requires Symmetric(pm) && Fresh(pm, next) && Owns(pm, e, el) && el.processor.None?
    ensures var r := StartPorts(pm, next, e, el);
      && ElementStep(pm, next, e, el, r)
      && StartResized(pm, el, r)
  {
    var ins := Truncate(pm, el.inPorts, 0, next);
    TruncateStep(pm, el.inPorts, 0, next, e, Source);
    assert forall i | 0 <= i < |el.outPorts| :: el.outPorts[i] in ins.ports;
    StartOutputStep(ins.ports, el.outPorts, next, e);
    var outs := StartOutput(ins.ports, el.outPorts, next, e);
    ElementStepsCompose(pm, next, e, el, Source, ins, outs);
  }

  /** A start node's output array: kept when it holds exactly one port, otherwise replaced
      by one new port. */
  function StartOutput(pm: PortMap, ids: seq<PortId>, next: nat, e: ElemId): (r: Listed)
    requires Symmetric(pm)
    ensures |r.ids| == 1
    ensures |ids| == 1 ==> r == Listed(pm, ids, next)
  {
    if |ids| == 1 then Listed(pm, ids, next)
    else
      var t := Truncate(pm, ids, 0, next);
      AddPorts(t.ports, [], 1, next, e, Out)
  }

  lemma StartOutputStep(pm: PortMap, ids: seq<PortId>, next: nat, e: ElemId)
    requires Symmetric(pm) && Fresh(pm, next) && NoDup(ids)
    requires forall i | 0 <= i < |ids| :: ids[i] in pm
    ensures ListStep(pm, ids, next, e, Out, StartOutput(pm, ids, next, e))
    ensures |ids| != 1 ==> StartOutput(pm, ids, next, e).ids[0] !in pm
  {
    if |ids| != 1 {
      var t := Truncate(pm, ids, 0, next);
      TruncateStep(pm, ids, 0, next, e, Out);
      AddPortsStep(t.ports, [], 1, next, e, Out);
      ListStepsCompose(pm, ids, next, e, Out, t, StartOutput(pm, ids, next, e));
    }
  }

  /** The constructor of a start node: `updateConnections` on empty arrays adds one new,
      unconnected output with id `next` and nothing else. */
  lemma StartPortsEmpty(pm: PortMap, next: nat, e: ElemId)
    requires Symmetric(pm) && Fresh(pm, next) && Owns(pm, e, Element(None, [], []))
    ensures StartPorts(pm, next, e, Element(None, [], []))
            == Resized(pm[next := Port(Out, None, e, 0)], Element(None, [], [next]), next + 1)
  {
    assert RemovePorts(pm, []) == pm;
    var added := Range(next, 1);
    assert added == [next];
    var m := map i | i in added :: Port(Out, None, e, 0);
    assert m == map[next := Port(Out, None, e, 0)];
    assert pm + m == pm[next := Port(Out, None, e, 0)];
  }

  /** `SignalElement::updateConnections`, reading the processor's current counts from
      `infoOf`. */
  function UpdateConnections(pm: PortMap, next: nat, e: ElemId, el: Element, infoOf: ProcId -> ProcInfo): (r: Resized)
    requires Symmetric(pm) && Fresh(pm, next) && Owns(pm, e, el)
    ensures r.element.processor == el.processor
  {
    if el.processor.Some? then ProcessorPorts(pm, next, e, el, infoOf(el.processor.value))
    else StartPorts(pm, next, e, el)
  }

  /** `updateConnections` edits only `e`'s own arrays, to the processor's counts or to the
      start-node shape. */
  lemma UpdateConnectionsStep(pm: PortMap, next: nat, e: ElemId, el: Element, infoOf: ProcId -> ProcInfo)
    requires Symmetric(pm) && Fresh(pm, next) && Owns(pm, e, el)
    ensures var r := UpdateConnections(pm, next, e, el, infoOf);
      && ElementStep(pm, next, e, el, r)
      && (SourceAlone(pm, el.inPorts) ==> SourceAlone(r.ports, r.element.inPorts))
      && (el.processor.Some? ==> ProcessorResized(pm, el, infoOf(el.processor.value), r))
      && (el.processor.None? ==> StartResized(pm, el, r))
  {
    if el.processor.Some? {
      ProcessorPortsStep(pm, next, e, el, infoOf(el.processor.value));
    } else {
      StartPortsStep(pm, next, e, el);
    }
  }

  /** Sets the channel count of the first `|chans|` output ports, in order. */
  function SetChannelCounts(pm: PortMap, outs: seq<PortId>, chans: seq<nat>): (r: PortMap)
    requires |chans| <= |outs| && NoDup(outs)
    requires forall i | 0 <= i < |outs| :: outs[i] in pm && pm[outs[i]].kind == Out
    ensures r.Keys == pm.Keys
    ensures forall i | 0 <= i < |chans| :: NumChannels(r, outs[i]) == chans[i]
    ensures forall p | p in pm && p !in outs[..|chans|] :: r[p] == pm[p]
    ensures forall p | p in pm ::
              r[p].kind == pm[p].kind && r[p].partner == pm[p].partner && r[p].owner == pm[p].owner
    decreases |chans|
  {
    if chans == [] then pm
    else
      var pm' := UpdateChannelCount(pm, outs[0], chans[0]);
      assert forall i | 1 <= i < |outs| :: outs[i] != outs[0];
      SetChannelCounts(pm', outs[1..], chans[1..])
  }

  /** `SignalElement::updateChannelCounts`: each output port takes its stream's channel
      count. The source indexes the port array by stream, so it needs at least as many
      ports as streams. */
  function UpdateChannelCounts(pm: PortMap, e: ElemId, el: Element, infoOf: ProcId -> ProcInfo): (r: PortMap)
    requires Owns(pm, e, el)
    requires el.processor.Some? ==> |infoOf(el.processor.value).streamChannels| <= |el.outPorts|
    ensures r.Keys == pm.Keys
    ensures forall p | p in pm ::
              r[p].kind == pm[p].kind && r[p].partner == pm[p].partner && r[p].owner == pm[p].owner
    ensures el.processor.Some? ==>
              forall i | 0 <= i < |infoOf(el.processor.value).streamChannels| ::
                NumChannels(r, el.outPorts[i]) == infoOf(el.processor.value).streamChannels[i]
    ensures forall p | p in pm && pm[p].owner != e :: r[p] == pm[p]
    ensures el.processor.None? ==> r == pm
  {
    if el.processor.Some? then SetChannelCounts(pm, el.outPorts, infoOf(el.processor.value).streamChannels)
    else pm
  }
}

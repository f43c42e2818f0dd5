/**
  `SignalChainManager`: the graph of signal elements, held as an arena. Ordinary elements
  and start nodes live in two ordered collections; ports link elements to each other.
  Structural edits splice an element in after an output or before an input, detach it,
  remove it, and repair the graph (`sanitizeChain`).
 */
module SignalChain {
  import opened Wrappers
  import opened Ports
  import opened SignalElements

  /** `RelativeProcessorPosition`. */
  datatype Position = After | Before

  /** The manager's state: the port arena, the elements by id, the ordered collections
      `m_elements` and `m_startNodes`, and the next unused port and element ids. */
  datatype Chain = Chain(
    ports: PortMap,
    elems: map<ElemId, Element>,
    elements: seq<ElemId>,
    startNodes: seq<ElemId>,
    nextPort: nat,
    nextElem: nat)

  /** Element `e` owns exactly the ports it lists, and a source port is only ever a sole
      input. */
  ghost predicate WellFormed(pm: PortMap, e: ElemId, el: Element) {
    Owns(pm, e, el) && SourceAlone(pm, el.inPorts)
  }

  /** The arena invariant: a symmetric partner relation, fresh-id counters, ordinary
      elements (with a processor) in `elements`, start nodes (without) in `startNodes`,
      and every port owned by exactly one live element. */
  ghost predicate Structured(g: Chain) {
    && Symmetric(g.ports) && Fresh(g.ports, g.nextPort)
    && (forall e | e in g.elems :: e < g.nextElem)
    && NoDup(g.elements) && NoDup(g.startNodes)
    && (forall i | 0 <= i < |g.elements| ::
          g.elements[i] in g.elems && g.elems[g.elements[i]].processor.Some?)
    && (forall i | 0 <= i < |g.startNodes| ::
          g.startNodes[i] in g.elems && g.elems[g.startNodes[i]].processor.None?)
    && (forall e | e in g.elems :: e in g.elements || e in g.startNodes)
    && (forall e {:trigger WellFormed(g.ports, e, g.elems[e])} | e in g.elems :: WellFormed(g.ports, e, g.elems[e]))
    && (forall p | p in g.ports :: g.ports[p].owner in g.elems)
  }

  /** The shape `updateConnections` gives every element: an ordinary element has at least
      one input; a start node has no input and exactly one output. */
  ghost predicate Shaped(g: Chain) {
    forall e | e in g.elems ::
      && (g.elems[e].processor.Some? ==> |g.elems[e].inPorts| >= 1)
      && (g.elems[e].processor.None? ==> g.elems[e].inPorts == [] && |g.elems[e].outPorts| == 1)
  }

  ghost predicate Valid(g: Chain) {
    Structured(g) && Shaped(g)
  }

  /** `getOutPort(0)`: the first output port, or `None` (null) for an empty array. */
  function FirstOut(el: Element): (r: Option<PortId>)
    ensures r.Some? <==> |el.outPorts| > 0
    ensures r.Some? ==> r.value == el.outPorts[0]
  {
    if |el.outPorts| > 0 then Some(el.outPorts[0]) else None
  }

  /** `getOutPort(0)->getConnection()` for element `e`; `None` also when `e` has no output. */
  function OutLink(g: Chain, e: ElemId): (r: Option<PortId>)
    requires Structured(g) && e in g.elems
    ensures |g.elems[e].outPorts| > 0 ==> g.elems[e].outPorts[0] in g.ports
    ensures r.Some? <==> |g.elems[e].outPorts| > 0 && g.ports[g.elems[e].outPorts[0]].partner.Some?
    ensures r.Some? ==> r == g.ports[g.elems[e].outPorts[0]].partner
  {
    assert WellFormed(g.ports, e, g.elems[e]);
    if |g.elems[e].outPorts| > 0 then g.ports[g.elems[e].outPorts[0]].partner else None
  }

  /** Start nodes have no processor, so `updateConnections` never reads their counts. */
  function NoCounts(p: ProcId): ProcInfo {
    ProcInfo(0, [])
  }

  /** Only partners changed: every port keeps its class, owner and channel count. */
  lemma RelinkStructured(g: Chain, pm': PortMap)
    requires Structured(g) && Symmetric(pm') && SameShape(g.ports, pm')
    ensures Structured(g.(ports := pm')) && (Shaped(g) ==> Shaped(g.(ports := pm')))
  {
    forall e | e in g.elems ensures WellFormed(pm', e, g.elems[e]) {
      RelinkWellFormed(g.ports, pm', e, g.elems[e]);
    }
  }

  lemma RelinkWellFormed(pm: PortMap, pm': PortMap, e: ElemId, el: Element)
    requires WellFormed(pm, e, el) && SameShape(pm, pm')
    ensures WellFormed(pm', e, el)
  {
    assert forall i | 0 <= i < |el.inPorts| :: SamePort(pm[el.inPorts[i]], pm'[el.inPorts[i]]);
    assert forall i | 0 <= i < |el.outPorts| :: SamePort(pm[el.outPorts[i]], pm'[el.outPorts[i]]);
  }

  /** The element `e` after `updateConnections`: the frame of `ElementStep` keeps every
      other element well formed. */
  lemma InstallStructured(g: Chain, e: ElemId, r: Resized)
    requires Structured(g) && e in g.elems
    requires ElementStep(g.ports, g.nextPort, e, g.elems[e], r)
    requires SourceAlone(r.ports, r.element.inPorts)
    ensures Structured(g.(ports := r.ports, elems := g.elems[e := r.element], nextPort := r.nextPort))
  {
    var g' := g.(ports := r.ports, elems := g.elems[e := r.element], nextPort := r.nextPort);
    forall e2 | e2 in g'.elems ensures WellFormed(g'.ports, e2, g'.elems[e2]) {
      if e2 != e {
        OtherWellFormed(g.ports, g.nextPort, e, g.elems[e], r, e2, g.elems[e2]);
      }
    }
    forall p | p in g'.ports ensures g'.ports[p].owner in g'.elems {
      if p in g.ports {
        assert g.ports[p].owner in g.elems;
      }
    }
  }

  /** `updateConnections` on `e` keeps every other element well formed. */
  lemma OtherWellFormed(pm: PortMap, next: nat, e: ElemId, el: Element, r: Resized, e2: ElemId, el2: Element)
    requires e2 != e && WellFormed(pm, e2, el2) && ElementStep(pm, next, e, el, r)
    ensures WellFormed(r.ports, e2, el2)
  {
    assert forall i | 0 <= i < |el2.inPorts| :: el2.inPorts[i] in r.ports;
    assert forall i | 0 <= i < |el2.outPorts| :: el2.outPorts[i] in r.ports;
  }

  /** Puts the result of `updateConnections` on `e` into the chain. */
  function Install(g: Chain, e: ElemId, r: Resized): Chain {
    g.(ports := r.ports, elems := g.elems[e := r.element], nextPort := r.nextPort)
  }

  /** `updateConnections` on element `e` of the chain. */
  function UpdateElement(g: Chain, e: ElemId, infoOf: ProcId -> ProcInfo): (g': Chain)
    requires Structured(g) && e in g.elems
    ensures g'.elements == g.elements && g'.startNodes == g.startNodes && g'.nextElem == g.nextElem
    ensures g'.elems.Keys == g.elems.Keys
    ensures forall e2 | e2 in g.elems && e2 != e :: g'.elems[e2] == g.elems[e2]
    ensures g'.elems[e].processor == g.elems[e].processor
    ensures g.elems[e].processor.None? ==>
              g'.elems[e].inPorts == [] && |g'.elems[e].outPorts| == 1
  {
    var el := g.elems[e];
    assert WellFormed(g.ports, e, el);
    Install(g, e, UpdateConnections(g.ports, g.nextPort, e, el, infoOf))
  }

  /** `updateConnections` keeps the arena invariant and the element shapes. */
  lemma UpdateElementValid(g: Chain, e: ElemId, infoOf: ProcId -> ProcInfo)
    requires Structured(g) && e in g.elems
    ensures Structured(UpdateElement(g, e, infoOf))
    ensures Shaped(g) ==> Shaped(UpdateElement(g, e, infoOf))
  {
    var el := g.elems[e];
    assert WellFormed(g.ports, e, el);
    var r := UpdateConnections(g.ports, g.nextPort, e, el, infoOf);
    UpdateConnectionsStep(g.ports, g.nextPort, e, el, infoOf);
    InstallStructured(g, e, r);
    UpdateElementShaped(g, e, infoOf);
  }

  lemma UpdateElementShaped(g: Chain, e: ElemId, infoOf: ProcId -> ProcInfo)
    requires Structured(g) && e in g.elems
    ensures Shaped(g) ==> Shaped(UpdateElement(g, e, infoOf))
  {
    assert WellFormed(g.ports, e, g.elems[e]);
    UpdateConnectionsStep(g.ports, g.nextPort, e, g.elems[e], infoOf);
  }

  /** `updateConnections` on `e` only edits `e`'s own port arrays. */
  lemma UpdateElementStep(g: Chain, e: ElemId, infoOf: ProcId -> ProcInfo)
    requires Structured(g) && e in g.elems
    ensures
      var g' := UpdateElement(g, e, infoOf);
      ElementStep(g.ports, g.nextPort, e, g.elems[e], Resized(g'.ports, g'.elems[e], g'.nextPort))
  {
    assert WellFormed(g.ports, e, g.elems[e]);
    UpdateConnectionsStep(g.ports, g.nextPort, e, g.elems[e], infoOf);
  }

  /** After `updateConnections`, an ordinary element's arrays match its processor. */
  lemma UpdateElementSized(g: Chain, e: ElemId, infoOf: ProcId -> ProcInfo)
    requires Structured(g) && e in g.elems && g.elems[e].processor.Some?
    ensures Sized(UpdateElement(g, e, infoOf), e, infoOf(g.elems[e].processor.value))
  {
    assert WellFormed(g.ports, e, g.elems[e]);
    UpdateConnectionsStep(g.ports, g.nextPort, e, g.elems[e], infoOf);
  }

  /** `updateConnections` on `e` leaves every other element, and the classes of its
      inputs, alone. */
  lemma UpdateElementKeeps(g: Chain, e: ElemId, infoOf: ProcId -> ProcInfo, e2: ElemId)
    requires Structured(g) && e in g.elems && e2 in g.elems && e2 != e
    ensures SizedKept(g, UpdateElement(g, e, infoOf), e2)
  {
    assert WellFormed(g.ports, e, g.elems[e]);
    UpdateConnectionsStep(g.ports, g.nextPort, e, g.elems[e], infoOf);
    assert WellFormed(g.ports, e2, g.elems[e2]);
  }

  /** Element `e`'s arrays match the processor's counts: one port per output stream, and
      either one ordinary input per input stream or a single source port. */
  ghost predicate Sized(g: Chain, e: ElemId, info: ProcInfo)
    requires e in g.elems
  {
    var el := g.elems[e];
    && |el.outPorts| == |info.streamChannels|
    && (forall i | 0 <= i < |el.inPorts| :: el.inPorts[i] in g.ports)
    && (info.numInputStreams > 0 ==>
          |el.inPorts| == info.numInputStreams
          && forall i | 0 <= i < |el.inPorts| :: g.ports[el.inPorts[i]].kind == In)
    && (info.numInputStreams == 0 ==>
          |el.inPorts| == 1 && g.ports[el.inPorts[0]].kind == Source)
  }

  /** Element `e` and the classes of its input ports are the same in `g` and `g'`. */
  ghost predicate SizedKept(g: Chain, g': Chain, e: ElemId)
    requires e in g.elems
  {
    && e in g'.elems && g'.elems[e] == g.elems[e]
    && forall i | 0 <= i < |g.elems[e].inPorts| && g.elems[e].inPorts[i] in g.ports ::
         g.elems[e].inPorts[i] in g'.ports
         && g'.ports[g.elems[e].inPorts[i]].kind == g.ports[g.elems[e].inPorts[i]].kind
  }

  lemma SizedPreserved(g: Chain, g': Chain, e: ElemId, info: ProcInfo)
    requires e in g.elems && Sized(g, e, info) && SizedKept(g, g', e)
    ensures Sized(g', e, info)
  {
  }

  lemma SizedKeptTrans(g: Chain, g1: Chain, g2: Chain, e: ElemId)
    requires e in g.elems && SizedKept(g, g1, e) && SizedKept(g1, g2, e)
    ensures SizedKept(g, g2, e)
  {
  }

  /** A new element with empty port arrays (before its constructor's `updateConnections`),
      appended to `m_elements` or, without a processor, to the start nodes. */
  function AddEmpty(g: Chain, proc: Option<ProcId>): (g': Chain)
    requires Structured(g)
    ensures Structured(g') && g.nextElem in g'.elems && g.nextElem !in g.elems
    ensures g'.elems == g.elems[g.nextElem := Element(proc, [], [])]
    ensures g'.ports == g.ports && g'.nextPort == g.nextPort && g'.nextElem == g.nextElem + 1
    ensures proc.Some? ==> g'.elements == g.elements + [g.nextElem] && g'.startNodes == g.startNodes
    ensures proc.None? ==> g'.startNodes == g.startNodes + [g.nextElem] && g'.elements == g.elements
  {
    AddEmptyStructured(g, proc);
    Empty(g, proc)
  }

  function Empty(g: Chain, proc: Option<ProcId>): Chain {
    var e := g.nextElem;
    g.(elems := g.elems[e := Element(proc, [], [])], nextElem := e + 1,
       elements := if proc.Some? then g.elements + [e] else g.elements,
       startNodes := if proc.None? then g.startNodes + [e] else g.startNodes)
  }

  lemma AppendFreshNoDup(s: seq<ElemId>, x: ElemId)
    requires NoDup(s) && x !in s
    ensures NoDup(s + [x])
  {
  }

  lemma AddEmptyStructured(g: Chain, proc: Option<ProcId>)
    requires Structured(g)
    ensures Structured(Empty(g, proc))
  {
    var e := g.nextElem;
    var g' := Empty(g, proc);
    assert e !in g.elems;
    assert e !in g.elements && e !in g.startNodes;
    if proc.Some? { AppendFreshNoDup(g.elements, e); } else { AppendFreshNoDup(g.startNodes, e); }
    forall e2 | e2 in g'.elems ensures WellFormed(g'.ports, e2, g'.elems[e2]) {
      if e2 != e {
        assert WellFormed(g.ports, e2, g.elems[e2]);
      } else {
        assert forall p | p in g.ports :: g.ports[p].owner != e;
      }
    }
    assert forall i | 0 <= i < |g'.elements| :: g'.elements[i] in g'.elems && g'.elems[g'.elements[i]].processor.Some?;
    assert forall i | 0 <= i < |g'.startNodes| :: g'.startNodes[i] in g'.elems && g'.elems[g'.startNodes[i]].processor.None?;
  }

  /** A new chain element and its id. */
  datatype Created = Created(chain: Chain, element: ElemId)

  /** `new SignalElement(proc)`: an element whose constructor runs `updateConnections`,
      appended to `m_elements` or, without a processor, to `m_startNodes`. */
  function NewElement(g: Chain, proc: Option<ProcId>, infoOf: ProcId -> ProcInfo): (r: Created)
    requires Structured(g)
    ensures r.element !in g.elems && r.chain.elems.Keys == g.elems.Keys + {r.element}
    ensures proc.Some? ==> r.chain.elements == g.elements + [r.element] && r.chain.startNodes == g.startNodes
    ensures proc.None? ==> r.chain.startNodes == g.startNodes + [r.element] && r.chain.elements == g.elements
    ensures r.chain.elems[r.element].processor == proc
    ensures proc.None? ==>
              r.chain.elems[r.element].inPorts == [] && |r.chain.elems[r.element].outPorts| == 1
    ensures forall e | e in g.elems :: r.chain.elems[e] == g.elems[e]
  {
    Created(UpdateElement(AddEmpty(g, proc), g.nextElem, infoOf), g.nextElem)
  }

  /** A new element keeps the chain valid. */
  lemma NewElementValid(g: Chain, proc: Option<ProcId>, infoOf: ProcId -> ProcInfo)
    requires Valid(g)
    ensures Valid(NewElement(g, proc, infoOf).chain)
  {
    var e := g.nextElem;
    var g1 := AddEmpty(g, proc);
    UpdateElementValid(g1, e, infoOf);
    if proc.Some? { UpdateElementSized(g1, e, infoOf); }
    NewShaped(g, g1, UpdateElement(g1, e, infoOf), e);
  }

  lemma NewShaped(g: Chain, g1: Chain, g2: Chain, e: ElemId)
    requires Shaped(g) && e !in g.elems && e in g1.elems
    requires g1.elems == g.elems[e := Element(g1.elems[e].processor, [], [])]
    requires g2.elems.Keys == g1.elems.Keys
    requires forall e2 | e2 in g1.elems && e2 != e :: g2.elems[e2] == g1.elems[e2]
    requires g2.elems[e].processor == g1.elems[e].processor
    requires g2.elems[e].processor.Some? ==> |g2.elems[e].inPorts| >= 1
    requires g2.elems[e].processor.None? ==> g2.elems[e].inPorts == [] && |g2.elems[e].outPorts| == 1
    ensures Shaped(g2)
  {
    assert forall e2 | e2 in g2.elems && e2 != e :: g2.elems[e2] == g.elems[e2];
  }

  /** The new element's ports are new, unconnected and its own; every old port is
      unchanged. */
  lemma NewElementPorts(g: Chain, proc: Option<ProcId>, infoOf: ProcId -> ProcInfo)
    requires Valid(g)
    ensures
      var r := NewElement(g, proc, infoOf);
      && g.ports.Keys <= r.chain.ports.Keys && (forall p | p in g.ports :: r.chain.ports[p] == g.ports[p])
      && (forall p | p in r.chain.ports && p !in g.ports ::
            r.chain.ports[p].owner == r.element && r.chain.ports[p].partner.None?)
  {
    var e := g.nextElem;
    var g1 := AddEmpty(g, proc);
    UpdateElementStep(g1, e, infoOf);
    var g2 := UpdateElement(g1, e, infoOf);
    assert forall p | p in g.ports :: g.ports[p].owner != e;
  }

  /** `SignalChainManager::createElement`. */
  function CreateElement(g: Chain, proc: ProcId, infoOf: ProcId -> ProcInfo): (r: Created)
    requires Valid(g)
    ensures Valid(r.chain)
    ensures r.element == g.nextElem && r.element !in g.elems && r.chain.elems.Keys == g.elems.Keys + {r.element}
    ensures r.chain.elements == g.elements + [r.element] && r.chain.startNodes == g.startNodes
    ensures r.chain.elems[r.element].processor == Some(proc)
    ensures forall e | e in g.elems :: r.chain.elems[e] == g.elems[e]
  {
    NewElementValid(g, Some(proc), infoOf);
    NewElement(g, Some(proc), infoOf)
  }

  /** The new element's ports are new, unconnected and its own; every old port is
      unchanged. */
  lemma CreatedPorts(g: Chain, proc: ProcId, infoOf: ProcId -> ProcInfo)
    requires Valid(g)
    ensures
      var r := CreateElement(g, proc, infoOf);
      && g.ports.Keys <= r.chain.ports.Keys && (forall p | p in g.ports :: r.chain.ports[p] == g.ports[p])
      && (forall p | p in r.chain.ports && p !in g.ports ::
            r.chain.ports[p].owner == r.element && r.chain.ports[p].partner.None?)
  {
    NewElementPorts(g, Some(proc), infoOf);
  }

  /** The new element matches its processor's stream counts. */
  lemma CreatedSized(g: Chain, proc: ProcId, infoOf: ProcId -> ProcInfo)
    requires Valid(g)
    ensures Sized(CreateElement(g, proc, infoOf).chain, CreateElement(g, proc, infoOf).element, infoOf(proc))
  {
    UpdateElementSized(AddEmpty(g, Some(proc)), g.nextElem, infoOf);
  }

  /** Runs `updateConnections` on the elements `es`, first to last. */
  function UpdateAll(g: Chain, es: seq<ElemId>, infoOf: ProcId -> ProcInfo): (g': Chain)
    requires Structured(g)
    requires forall i | 0 <= i < |es| :: es[i] in g.elems
    ensures g'.elements == g.elements && g'.startNodes == g.startNodes && g'.elems.Keys == g.elems.Keys
    ensures forall e | e in g.elems :: g'.elems[e].processor == g.elems[e].processor
    decreases |es|, 0
  {
    if es == [] then g
    else
      var g1 := UpdateAll(g, es[..|es| - 1], infoOf);
      UpdateAllValid(g, es[..|es| - 1], infoOf);
      UpdateElement(g1, es[|es| - 1], infoOf)
  }

  lemma {:induction false} UpdateAllValid(g: Chain, es: seq<ElemId>, infoOf: ProcId -> ProcInfo)
    requires Structured(g) && forall i | 0 <= i < |es| :: es[i] in g.elems
    ensures Structured(UpdateAll(g, es, infoOf))
    ensures Shaped(g) ==> Shaped(UpdateAll(g, es, infoOf))
    decreases |es|, 1
  {
    if es != [] {
      var front := es[..|es| - 1];
      UpdateAllValid(g, front, infoOf);
      UpdateElementValid(UpdateAll(g, front, infoOf), es[|es| - 1], infoOf);
    }
  }

  /** An element outside `es` is left alone by `UpdateAll`. */
  lemma {:induction false} UpdateAllKeeps(g: Chain, es: seq<ElemId>, infoOf: ProcId -> ProcInfo, e: ElemId)
    requires Structured(g) && forall i | 0 <= i < |es| :: es[i] in g.elems
    requires e in g.elems && e !in es
    ensures SizedKept(g, UpdateAll(g, es, infoOf), e)
    decreases |es|
  {
    if es != [] {
      var front := es[..|es| - 1];
      var g1 := UpdateAll(g, front, infoOf);
      assert e !in front;
      UpdateAllKeeps(g, front, infoOf, e);
      UpdateAllValid(g, front, infoOf);
      UpdateElementKeeps(g1, es[|es| - 1], infoOf, e);
      SizedKeptTrans(g, g1, UpdateAll(g, es, infoOf), e);
    }
  }

  /** After `UpdateAll`, every ordinary element of `es` matches its processor. */
  lemma {:induction false} UpdateAllSized(g: Chain, es: seq<ElemId>, infoOf: ProcId -> ProcInfo, i: nat)
    requires Structured(g) && forall k | 0 <= k < |es| :: es[k] in g.elems
    requires NoDup(es) && i < |es| && g.elems[es[i]].processor.Some?
    ensures Sized(UpdateAll(g, es, infoOf), es[i], infoOf(g.elems[es[i]].processor.value))
    decreases |es|
  {
    var front := es[..|es| - 1];
    var g1 := UpdateAll(g, front, infoOf);
    UpdateAllValid(g, front, infoOf);
    if i == |es| - 1 {
      UpdateElementSized(g1, es[i], infoOf);
    } else {
      var info := infoOf(g.elems[es[i]].processor.value);
      assert es[i] == front[i] && es[i] != es[|es| - 1];
      assert NoDup(front);
      UpdateAllSized(g, front, infoOf, i);
      UpdateElementKeeps(g1, es[|es| - 1], infoOf, es[i]);
      SizedPreserved(g1, UpdateAll(g, es, infoOf), es[i], info);
    }
  }

  /** `SignalChainManager::updateChainConnectivity`: `updateConnections` on every ordinary
      element; start nodes are left alone and the chain is not sanitized. */
  function UpdateChainConnectivity(g: Chain, infoOf: ProcId -> ProcInfo): (g': Chain)
    requires Valid(g)
    ensures Valid(g')
    ensures g'.elements == g.elements && g'.startNodes == g.startNodes && g'.elems.Keys == g.elems.Keys
  {
    UpdateAllValid(g, g.elements, infoOf);
    UpdateAll(g, g.elements, infoOf)
  }

  /** After `updateChainConnectivity` every ordinary element matches its processor, and
      every start node is unchanged. */
  lemma ConnectivitySized(g: Chain, infoOf: ProcId -> ProcInfo)
    requires Valid(g)
    ensures forall i | 0 <= i < |g.elements| ::
              Sized(UpdateChainConnectivity(g, infoOf), g.elements[i],
                    infoOf(g.elems[g.elements[i]].processor.value))
    ensures forall i | 0 <= i < |g.startNodes| ::
              UpdateChainConnectivity(g, infoOf).elems[g.startNodes[i]] == g.elems[g.startNodes[i]]
  {
    forall i | 0 <= i < |g.elements|
      ensures Sized(UpdateChainConnectivity(g, infoOf), g.elements[i],
                    infoOf(g.elems[g.elements[i]].processor.value))
    {
      UpdateAllSized(g, g.elements, infoOf, i);
    }
    forall i | 0 <= i < |g.startNodes|
      ensures UpdateChainConnectivity(g, infoOf).elems[g.startNodes[i]] == g.elems[g.startNodes[i]]
    {
      assert g.startNodes[i] !in g.elements;
      UpdateAllKeeps(g, g.elements, infoOf, g.startNodes[i]);
    }
  }
}

/**
  The public edits of `SignalChainManager` on the whole chain: `placeElement`,
  `detachElement`, `removeProcessor`, and the `addProcessor` / `moveProcessor` overloads.
  The port work is the arena-level splice and detach of `ChainEdits`; placing an element
  ends with `sanitizeChain`, removing one does not.
 */
module ChainManager {
  import opened Wrappers
  import opened Ports
  import opened SignalElements
  import opened SignalChain
  import opened ChainSanitize
  import opened ChainEdits

  /** An element with a processor in a valid chain: the only kind of element the edits
      are applied to (`processor->getSignalElement()`). */
  ghost predicate Ordinary(g: Chain, e: ElemId) {
    Valid(g) && e in g.elems && g.elems[e].processor.Some?
  }

  lemma OrdinaryArrays(g: Chain, e: ElemId)
    requires Ordinary(g, e)
    ensures Arrays(g.ports, g.elems[e].inPorts, g.elems[e].outPorts)
  {
    assert WellFormed(g.ports, e, g.elems[e]);
  }

  /** A port argument of the overload `pos` selects: an `OutPort*` after, an `InPort*`
      before, or null. */
  ghost predicate Fits(g: Chain, pos: Position, port: Option<PortId>) {
    port.Some? ==>
      && port.value in g.ports
      && (pos == After ==> g.ports[port.value].kind == Out)
      && (pos == Before ==> g.ports[port.value].IsInput())
  }

  /** None of the element's ports is connected. */
  ghost predicate Detached(g: Chain, e: ElemId)
    requires e in g.elems
  {
    Loose(g.ports, g.elems[e].inPorts) && Loose(g.ports, g.elems[e].outPorts)
  }

  /** The port work of `placeElement`: nothing for a null port. */
  function Splice(g: Chain, e: ElemId, pos: Position, port: Option<PortId>): (g': Chain)
    requires Ordinary(g, e) && Fits(g, pos, port)
    ensures g' == g.(ports := g'.ports) && Symmetric(g'.ports) && SameShape(g.ports, g'.ports)
  {
    OrdinaryArrays(g, e);
    var el := g.elems[e];
    if port.None? then g
    else if pos == After then g.(ports := SpliceAfterPorts(g.ports, el.inPorts, el.outPorts, port.value))
    else g.(ports := SpliceBeforePorts(g.ports, el.inPorts, el.outPorts, port.value))
  }

  lemma SpliceValid(g: Chain, e: ElemId, pos: Position, port: Option<PortId>)
    requires Ordinary(g, e) && Fits(g, pos, port)
    ensures Valid(Splice(g, e, pos, port))
  {
    RelinkStructured(g, Splice(g, e, pos, port).ports);
  }

  /** `placeElement(element, port)`: the splice, then `sanitizeChain`. */
  function PlaceElement(g: Chain, e: ElemId, pos: Position, port: Option<PortId>): (g': Chain)
    requires Ordinary(g, e) && Fits(g, pos, port)
    ensures g'.elements == g.elements
  {
    SpliceValid(g, e, pos, port);
    Sanitize(Splice(g, e, pos, port))
  }

  /** Placing an element leaves a valid chain in which every start node feeds something
      and every input of every ordinary element is connected. */
  lemma PlaceSane(g: Chain, e: ElemId, pos: Position, port: Option<PortId>)
    requires Ordinary(g, e) && Fits(g, pos, port)
    ensures Valid(PlaceElement(g, e, pos, port)) && Sane(PlaceElement(g, e, pos, port))
  {
    SpliceValid(g, e, pos, port);
    SanitizeSane(Splice(g, e, pos, port));
  }

  /** Placing a detached element after `after`: `after` feeds its input 0 and, when it has
      an output 0, that output feeds what `after` fed before. The element itself is kept. */
  lemma PlaceAfterLinks(g: Chain, e: ElemId, after: PortId)
    requires Ordinary(g, e) && Fits(g, After, Some(after)) && Detached(g, e)
    requires after !in g.elems[e].outPorts
    ensures var r := PlaceElement(g, e, After, Some(after));
      var el := g.elems[e];
      var x := g.ports[after].partner;
      && e in r.elems && r.elems[e] == el && |el.inPorts| > 0
      && after in r.ports && r.ports[after].partner == Some(el.inPorts[0])
      && el.inPorts[0] in r.ports && r.ports[el.inPorts[0]].partner == Some(after)
      && (|el.outPorts| > 0 && x.Some? ==>
            && el.outPorts[0] in r.ports && r.ports[el.outPorts[0]].partner == x
            && x.value in r.ports && r.ports[x.value].partner == Some(el.outPorts[0]))
  {
    var el := g.elems[e];
    OrdinaryArrays(g, e);
    var s := Splice(g, e, After, Some(after));
    SpliceAfterLinks(g.ports, el.inPorts, el.outPorts, after);
    SpliceValid(g, e, After, Some(after));
    SanitizeKeeps(s);
  }

  /** Placing a detached element with an output before `before`: its output 0 feeds
      `before`, and what fed `before` now feeds its input 0. The element itself is kept. */
  lemma PlaceBeforeLinks(g: Chain, e: ElemId, before: PortId)
    requires Ordinary(g, e) && Fits(g, Before, Some(before)) && Detached(g, e)
    requires before !in g.elems[e].inPorts && |g.elems[e].outPorts| > 0
    ensures var r := PlaceElement(g, e, Before, Some(before));
      var el := g.elems[e];
      var y := g.ports[before].partner;
      && e in r.elems && r.elems[e] == el && |el.inPorts| > 0
      && before in r.ports && r.ports[before].partner == Some(el.outPorts[0])
      && el.outPorts[0] in r.ports && r.ports[el.outPorts[0]].partner == Some(before)
      && (y.Some? ==>
            && el.inPorts[0] in r.ports && r.ports[el.inPorts[0]].partner == y
            && y.value in r.ports && r.ports[y.value].partner == Some(el.inPorts[0]))
  {
    var el := g.elems[e];
    OrdinaryArrays(g, e);
    var s := Splice(g, e, Before, Some(before));
    SpliceBeforeLinks(g.ports, el.inPorts, el.outPorts, before);
    SpliceValid(g, e, Before, Some(before));
    SanitizeKeeps(s);
  }

  /** Where the source would dereference null (a null port, or placing before a port an
      element without outputs) only `sanitizeChain` runs. */
  lemma PlaceNowhere(g: Chain, e: ElemId, pos: Position, port: Option<PortId>)
    requires Ordinary(g, e) && Fits(g, pos, port)
    requires port.None? || (pos == Before && |g.elems[e].outPorts| == 0)
    ensures PlaceElement(g, e, pos, port) == Sanitize(g)
  {
  }

  /** `detachElement(processor)`: only the port arena changes. */
  function Detach(g: Chain, e: ElemId): (g': Chain)
    requires Ordinary(g, e)
    ensures g' == g.(ports := g'.ports) && Symmetric(g'.ports) && SameShape(g.ports, g'.ports)
  {
    OrdinaryArrays(g, e);
    g.(ports := DetachPorts(g.ports, g.elems[e].inPorts, g.elems[e].outPorts))
  }

  lemma DetachValid(g: Chain, e: ElemId)
    requires Ordinary(g, e)
    ensures Ordinary(Detach(g, e), e)
  {
    RelinkStructured(g, Detach(g, e).ports);
  }

  /** After `detachElement` no port of the element is connected; what fed its input 0 and
      what its output 0 fed are linked to each other when both lie outside it; every other
      port outside it only loses its link into the element. */
  lemma DetachLinks(g: Chain, e: ElemId)
    requires Ordinary(g, e)
    ensures var r := Detach(g, e).ports;
      var el := g.elems[e];
      var feeder := Feeder(g.ports, el.inPorts);
      var fed := Fed(g.ports, el.outPorts);
      && Loose(r, el.inPorts) && Loose(r, el.outPorts)
      && (feeder.Some? && feeder.value !in el.outPorts && (fed.Some? ==> fed.value !in el.inPorts) ==>
            feeder.value in r && r[feeder.value].partner == fed)
      && (fed.Some? && fed.value !in el.inPorts && (feeder.Some? ==> feeder.value !in el.outPorts) ==>
            fed.value in r && r[fed.value].partner == feeder)
      && forall q | q in g.ports && !el.Lists(q) && Some(q) != feeder && Some(q) != fed ::
           r[q] == g.ports[q].(partner := Unlinked(g.ports[q].partner, el.inPorts + el.outPorts))
  {
    var el := g.elems[e];
    OrdinaryArrays(g, e);
    DetachPortsLoose(g.ports, el.inPorts, el.outPorts);
    DetachPortsFrame(g.ports, el.inPorts, el.outPorts);
    var feeder := Feeder(g.ports, el.inPorts);
    var fed := Fed(g.ports, el.outPorts);
    if (feeder.Some? ==> feeder.value !in el.outPorts) && (fed.Some? ==> fed.value !in el.inPorts) {
      DetachPortsBridge(g.ports, el.inPorts, el.outPorts);
    }
  }

  /** Detaching a detached element that was spliced in next to a port outside it restores
      the chain; after a port, this needs the port's former partner to have somewhere to
      go (an output 0) or the port to have been free. */
  lemma DetachUndoesSplice(g: Chain, e: ElemId, pos: Position, port: PortId)
    requires Ordinary(g, e) && Fits(g, pos, Some(port)) && Detached(g, e)
    requires !g.elems[e].Lists(port)
    requires pos == After ==> |g.elems[e].outPorts| > 0 || g.ports[port].partner.None?
    ensures Ordinary(Splice(g, e, pos, Some(port)), e)
    ensures Detach(Splice(g, e, pos, Some(port)), e) == g
  {
    var el := g.elems[e];
    OrdinaryArrays(g, e);
    SpliceValid(g, e, pos, Some(port));
    if pos == After {
      DetachUndoesSpliceAfter(g.ports, el.inPorts, el.outPorts, port);
    } else {
      DetachUndoesSpliceBefore(g.ports, el.inPorts, el.outPorts, port);
    }
  }

  /** `removeProcessor(processor)`: detach the element, then destroy it with its ports.
      The chain is not sanitized afterwards. */
  function RemoveProcessor(g: Chain, e: ElemId): (g': Chain)
    requires Ordinary(g, e)
    ensures g'.elems.Keys == g.elems.Keys - {e}
    ensures forall q | q in g.ports :: (q in g'.ports <==> g.ports[q].owner != e)
    ensures g'.elements == Without(g.elements, {e})
  {
    DropElements(Detach(g, e), {e})
  }

  /** Removing a processor keeps the chain valid: the element's ports are all unconnected
      once it is detached, so destroying them leaves no dangling link. */
  lemma RemoveValid(g: Chain, e: ElemId)
    requires Ordinary(g, e)
    ensures Valid(RemoveProcessor(g, e))
  {
    var d := Detach(g, e);
    DetachValid(g, e);
    DetachLinks(g, e);
    DetachedUnconnected(d, e);
    DropElementsValid(d, {e});
  }

  lemma DetachedUnconnected(g: Chain, e: ElemId)
    requires Structured(g) && e in g.elems && Detached(g, e)
    ensures Unconnected(g, {e})
  {
    var el := g.elems[e];
    assert WellFormed(g.ports, e, el);
    forall p | p in g.ports && g.ports[p].owner in {e} ensures g.ports[p].partner.None? {
      if p in el.inPorts {
        var i :| 0 <= i < |el.inPorts| && el.inPorts[i] == p;
      } else {
        var i :| 0 <= i < |el.outPorts| && el.outPorts[i] == p;
      }
    }
  }

  /** Removing a processor deletes its element and keeps the others, in order and
      unchanged; start nodes are untouched. */
  lemma RemoveElements(g: Chain, e: ElemId)
    requires Ordinary(g, e)
    ensures var r := RemoveProcessor(g, e);
      && r.elems.Keys == g.elems.Keys - {e}
      && (forall e2 | e2 in r.elems :: r.elems[e2] == g.elems[e2])
      && r.elements == Without(g.elements, {e}) && r.startNodes == g.startNodes
  {
    assert e !in g.startNodes;
    WithoutNothing(g.startNodes, {e});
  }

  /** Removing a processor links its neighbours on input 0 and output 0 when both lie
      outside it. */
  lemma RemoveLinks(g: Chain, e: ElemId)
    requires Ordinary(g, e)
    ensures var r := RemoveProcessor(g, e);
      var el := g.elems[e];
      var feeder := Feeder(g.ports, el.inPorts);
      var fed := Fed(g.ports, el.outPorts);
      && (feeder.Some? && feeder.value !in el.outPorts && (fed.Some? ==> fed.value !in el.inPorts) ==>
            feeder.value in r.ports && r.ports[feeder.value].partner == fed)
      && (fed.Some? && fed.value !in el.inPorts && (feeder.Some? ==> feeder.value !in el.outPorts) ==>
            fed.value in r.ports && r.ports[fed.value].partner == feeder)
  {
    DetachLinks(g, e);
    OrdinaryArrays(g, e);
    BridgeSurvives(g, Detach(g, e).ports, e);
  }

  /** The bridge `detachElement` builds survives the destruction of the element's ports. */
  lemma BridgeSurvives(g: Chain, pm: PortMap, e: ElemId)
    requires Structured(g) && e in g.elems && pm.Keys == g.ports.Keys
    requires Arrays(g.ports, g.elems[e].inPorts, g.elems[e].outPorts)
    requires forall q | q in pm :: pm[q].owner == g.ports[q].owner
    ensures var el := g.elems[e];
      var feeder := Feeder(g.ports, el.inPorts);
      var fed := Fed(g.ports, el.outPorts);
      var r := KeepPorts(pm, {e});
      && (feeder.Some? && feeder.value !in el.outPorts ==> feeder.value in r && r[feeder.value] == pm[feeder.value])
      && (fed.Some? && fed.value !in el.inPorts ==> fed.value in r && r[fed.value] == pm[fed.value])
  {
    var el := g.elems[e];
    var feeder := Feeder(g.ports, el.inPorts);
    var fed := Fed(g.ports, el.outPorts);
    if feeder.Some? && feeder.value !in el.outPorts {
      assert g.ports[feeder.value].kind == Out;
      assert feeder.value !in el.inPorts;
      NotOwned(g, e, feeder.value);
    }
    if fed.Some? && fed.value !in el.inPorts {
      assert g.ports[fed.value].IsInput();
      assert fed.value !in el.outPorts;
      NotOwned(g, e, fed.value);
    }
  }

  /** A port the element does not list belongs to another element. */
  lemma NotOwned(g: Chain, e: ElemId, q: PortId)
    requires Structured(g) && e in g.elems && q in g.ports && !g.elems[e].Lists(q)
    ensures g.ports[q].owner != e
  {
    assert WellFormed(g.ports, e, g.elems[e]);
  }

  /** Removing a processor destroys exactly its ports, and every other port only loses
      its link into it (apart from the two it bridges). */
  lemma RemoveFrame(g: Chain, e: ElemId)
    requires Ordinary(g, e)
    ensures var r := RemoveProcessor(g, e);
      var el := g.elems[e];
      && (forall q | q in g.ports :: (q in r.ports <==> g.ports[q].owner != e))
      && forall q | q in r.ports && Some(q) != Feeder(g.ports, el.inPorts) && Some(q) != Fed(g.ports, el.outPorts) ::
           r.ports[q] == g.ports[q].(partner := Unlinked(g.ports[q].partner, el.inPorts + el.outPorts))
  {
    var el := g.elems[e];
    DetachLinks(g, e);
    assert WellFormed(g.ports, e, el);
    var r := RemoveProcessor(g, e);
    forall q | q in r.ports ensures !el.Lists(q) {
      assert g.ports[q].owner != e;
      assert q !in el.inPorts && q !in el.outPorts;
    }
  }

  /** `addProcessor(processor, port)`: create the element, then place it. */
  function AddProcessor(g: Chain, proc: ProcId, pos: Position, port: Option<PortId>, infoOf: ProcId -> ProcInfo): (g': Chain)
    requires Valid(g) && Fits(g, pos, port)
    ensures g'.elements == g.elements + [g.nextElem]
  {
    var c := CreateElement(g, proc, infoOf);
    CreatedPorts(g, proc, infoOf);
    PlaceElement(c.chain, c.element, pos, port)
  }

  /** `addProcessor` leaves a valid, sane chain: links stay symmetric and every input of
      every ordinary element is connected. */
  lemma AddSane(g: Chain, proc: ProcId, pos: Position, port: Option<PortId>, infoOf: ProcId -> ProcInfo)
    requires Valid(g) && Fits(g, pos, port)
    ensures Valid(AddProcessor(g, proc, pos, port, infoOf))
    ensures Sane(AddProcessor(g, proc, pos, port, infoOf))
  {
    var c := CreateElement(g, proc, infoOf);
    CreatedPorts(g, proc, infoOf);
    CreatedDetached(g, proc, infoOf);
    PlaceSane(c.chain, c.element, pos, port);
  }

  /** The element `createElement` makes is detached and owns no old port. */
  lemma CreatedDetached(g: Chain, proc: ProcId, infoOf: ProcId -> ProcInfo)
    requires Valid(g)
    ensures var c := CreateElement(g, proc, infoOf);
      && Ordinary(c.chain, c.element) && Detached(c.chain, c.element)
      && forall p | p in g.ports :: !c.chain.elems[c.element].Lists(p)
  {
    var c := CreateElement(g, proc, infoOf);
    CreatedPorts(g, proc, infoOf);
    var el := c.chain.elems[c.element];
    assert WellFormed(c.chain.ports, c.element, el);
    forall p | p in g.ports ensures !el.Lists(p) {
      assert g.ports[p].owner in g.elems;
    }
  }

  /** Adding a processor after `after`: the new element is fed by `after` and, when it has
      an output, feeds what `after` fed. */
  lemma AddAfterLinks(g: Chain, proc: ProcId, after: PortId, infoOf: ProcId -> ProcInfo)
    requires Valid(g) && Fits(g, After, Some(after))
    ensures var r := AddProcessor(g, proc, After, Some(after), infoOf);
      var n := g.nextElem;
      var x := g.ports[after].partner;
      && n in r.elems && r.elems[n].processor == Some(proc) && |r.elems[n].inPorts| > 0
      && after in r.ports && r.ports[after].partner == Some(r.elems[n].inPorts[0])
      && (|r.elems[n].outPorts| > 0 && x.Some? ==>
            r.elems[n].outPorts[0] in r.ports && r.ports[r.elems[n].outPorts[0]].partner == x)
  {
    var c := CreateElement(g, proc, infoOf);
    CreatedPorts(g, proc, infoOf);
    CreatedDetached(g, proc, infoOf);
    PlaceAfterLinks(c.chain, c.element, after);
  }

  /** Adding a processor with an output before `before`: the new element feeds `before`
      and is fed by what fed `before`. */
  lemma AddBeforeLinks(g: Chain, proc: ProcId, before: PortId, infoOf: ProcId -> ProcInfo)
    requires Valid(g) && Fits(g, Before, Some(before))
    ensures var r := AddProcessor(g, proc, Before, Some(before), infoOf);
      var n := g.nextElem;
      var y := g.ports[before].partner;
      && n in r.elems && r.elems[n].processor == Some(proc) && |r.elems[n].inPorts| > 0
      && (|r.elems[n].outPorts| > 0 ==>
            && before in r.ports && r.ports[before].partner == Some(r.elems[n].outPorts[0])
            && (y.Some? ==> r.elems[n].inPorts[0] in r.ports && r.ports[r.elems[n].inPorts[0]].partner == y))
  {
    var c := CreateElement(g, proc, infoOf);
    CreatedPorts(g, proc, infoOf);
    CreatedDetached(g, proc, infoOf);
    var el := c.chain.elems[c.element];
    if |el.outPorts| > 0 {
      PlaceBeforeLinks(c.chain, c.element, before);
    } else {
      SanitizeKeeps(c.chain);
      OrdinaryArrays(c.chain, c.element);
    }
  }

  /** `moveProcessor(processor, port)`: detach the element, then place it. */
  function MoveProcessor(g: Chain, e: ElemId, pos: Position, port: Option<PortId>): (g': Chain)
    requires Ordinary(g, e) && Fits(g, pos, port)
    ensures g'.elements == g.elements
  {
    DetachValid(g, e);
    PlaceElement(Detach(g, e), e, pos, port)
  }

  /** `moveProcessor` leaves a valid, sane chain. */
  lemma MoveSane(g: Chain, e: ElemId, pos: Position, port: Option<PortId>)
    requires Ordinary(g, e) && Fits(g, pos, port)
    ensures Valid(MoveProcessor(g, e, pos, port))
    ensures Sane(MoveProcessor(g, e, pos, port))
  {
    DetachValid(g, e);
    PlaceSane(Detach(g, e), e, pos, port);
  }

  /** Moving a processor after `after` (outside it): once detached, the element is fed by
      `after` and, when it has an output, feeds what `after` fed at that point. */
  lemma MoveAfterLinks(g: Chain, e: ElemId, after: PortId)
    requires Ordinary(g, e) && Fits(g, After, Some(after)) && !g.elems[e].Lists(after)
    ensures var r := MoveProcessor(g, e, After, Some(after));
      var el := g.elems[e];
      var x := Detach(g, e).ports[after].partner;
      && e in r.elems && r.elems[e] == el && |el.inPorts| > 0
      && after in r.ports && r.ports[after].partner == Some(el.inPorts[0])
      && (|el.outPorts| > 0 && x.Some? ==>
            el.outPorts[0] in r.ports && r.ports[el.outPorts[0]].partner == x)
  {
    DetachValid(g, e);
    DetachLinks(g, e);
    PlaceAfterLinks(Detach(g, e), e, after);
  }

  /** Moving a processor with an output before `before` (outside it): once detached, the
      element feeds `before` and is fed by what fed `before` at that point. */
  lemma MoveBeforeLinks(g: Chain, e: ElemId, before: PortId)
    requires Ordinary(g, e) && Fits(g, Before, Some(before)) && !g.elems[e].Lists(before)
    requires |g.elems[e].outPorts| > 0
    ensures var r := MoveProcessor(g, e, Before, Some(before));
      var el := g.elems[e];
      var y := Detach(g, e).ports[before].partner;
      && e in r.elems && r.elems[e] == el && |el.inPorts| > 0
      && before in r.ports && r.ports[before].partner == Some(el.outPorts[0])
      && (y.Some? ==> el.inPorts[0] in r.ports && r.ports[el.inPorts[0]].partner == y)
  {
    DetachValid(g, e);
    DetachLinks(g, e);
    PlaceBeforeLinks(Detach(g, e), e, before);
  }

  /** The port the relative overloads pick from `other`: `getOutPort(0)` after,
      `getInPort(0)` before, null for a null `other` or an empty array. */
  function RelativePort(g: Chain, other: Option<ElemId>, pos: Position): (r: Option<PortId>)
    requires Structured(g) && (other.Some? ==> other.value in g.elems)
    ensures Fits(g, pos, r)
    ensures r.Some? ==> other.Some? && r.value in g.ports && g.ports[r.value].owner == other.value
  {
    if other.None? then None
    else
      var el := g.elems[other.value];
      assert WellFormed(g.ports, other.value, el);
      if pos == After then FirstOut(el)
      else if |el.inPorts| > 0 then Some(el.inPorts[0]) else None
  }

  /** `addProcessor(processor, other, porNum, pos)`; the three-argument overload passes
      `porNum` 0, and `porNum` is not used. */
  function AddProcessorNear(g: Chain, proc: ProcId, other: Option<ElemId>, porNum: nat, pos: Position,
                            infoOf: ProcId -> ProcInfo): (g': Chain)
    requires Valid(g) && (other.Some? ==> other.value in g.elems)
    ensures g'.elements == g.elements + [g.nextElem]
  {
    AddProcessor(g, proc, pos, RelativePort(g, other, pos), infoOf)
  }

  /** `moveProcessor(processor, other, porNum, pos)`, likewise. */
  function MoveProcessorNear(g: Chain, e: ElemId, other: Option<ElemId>, porNum: nat, pos: Position): (g': Chain)
    requires Ordinary(g, e) && (other.Some? ==> other.value in g.elems)
    ensures g'.elements == g.elements
  {
    MoveProcessor(g, e, pos, RelativePort(g, other, pos))
  }

  /** Adding a processor after another element with an output puts the new element
      right after that element's output 0. */
  lemma AddNearAfter(g: Chain, proc: ProcId, other: ElemId, porNum: nat, infoOf: ProcId -> ProcInfo)
    requires Valid(g) && other in g.elems && |g.elems[other].outPorts| > 0
    ensures var r := AddProcessorNear(g, proc, Some(other), porNum, After, infoOf);
      var n := g.nextElem;
      var out := g.elems[other].outPorts[0];
      && n in r.elems && |r.elems[n].inPorts| > 0
      && out in r.ports && r.ports[out].partner == Some(r.elems[n].inPorts[0])
  {
    assert WellFormed(g.ports, other, g.elems[other]);
    AddAfterLinks(g, proc, g.elems[other].outPorts[0], infoOf);
  }

  /** Adding a processor relative to nothing, or before a start node, only sanitizes the
      chain around the new, unplaced element. */
  lemma AddNearNowhere(g: Chain, proc: ProcId, other: Option<ElemId>, porNum: nat, pos: Position,
                       infoOf: ProcId -> ProcInfo)
    requires Valid(g) && (other.Some? ==> other.value in g.elems)
    requires other.None? || (pos == Before && g.elems[other.value].processor.None?)
    ensures AddProcessorNear(g, proc, other, porNum, pos, infoOf)
              == Sanitize(CreateElement(g, proc, infoOf).chain)
  {
    if other.Some? {
      assert Shaped(g) && g.elems[other.value].inPorts == [];
    }
  }
}

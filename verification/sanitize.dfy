/**
  `SignalChainManager::sanitizeChain`: start nodes whose output leads nowhere are deleted,
  then every unconnected input of an ordinary element gets a new start node of its own.
  Deleting elements is shared with `removeProcessor`.
 */
module ChainSanitize {
  import opened Wrappers
  import opened Ports
  import opened SignalElements
  import opened SignalChain

  /** `s` without the ids in `dead`, in the original order (what removing entries from an
      `OwnedArray` in place leaves). */
  function Without(s: seq<ElemId>, dead: set<ElemId>): (r: seq<ElemId>)
    ensures forall x :: x in r <==> x in s && x !in dead
    ensures NoDup(s) ==> NoDup(r)
    decreases |s|
  {
    if s == [] then []
    else
      var rest := Without(s[1..], dead);
      assert NoDup(s) ==> NoDup(s[1..]) && s[0] !in s[1..];
      if s[0] in dead then rest else [s[0]] + rest
  }

  /** Removing nothing that occurs leaves the sequence as it was. */
  lemma {:induction false} WithoutNothing(s: seq<ElemId>, dead: set<ElemId>)
    requires forall i | 0 <= i < |s| :: s[i] !in dead
    ensures Without(s, dead) == s
    decreases |s|
  {
    if s != [] {
      WithoutNothing(s[1..], dead);
    }
  }

  /** Deletes the elements `dead` and the ports they own. Destroying a port disconnects it;
      every such port is unconnected here, so no link elsewhere changes. */
  function DropElements(g: Chain, dead: set<ElemId>): (g': Chain)
    ensures g'.elems.Keys == g.elems.Keys - dead
    ensures forall e | e in g'.elems :: g'.elems[e] == g.elems[e]
    ensures g'.elements == Without(g.elements, dead) && g'.startNodes == Without(g.startNodes, dead)
    ensures forall p | p in g.ports :: (p in g'.ports <==> g.ports[p].owner !in dead)
    ensures g'.ports.Keys <= g.ports.Keys && forall p | p in g'.ports :: g'.ports[p] == g.ports[p]
    ensures g'.nextPort == g.nextPort && g'.nextElem == g.nextElem
  {
    g.(ports := KeepPorts(g.ports, dead),
       elems := KeepElems(g.elems, dead),
       elements := Without(g.elements, dead),
       startNodes := Without(g.startNodes, dead))
  }

  /** The ports not owned by an element of `dead`. */
  function KeepPorts(pm: PortMap, dead: set<ElemId>): (r: PortMap)
    ensures forall p | p in pm :: (p in r <==> pm[p].owner !in dead)
    ensures r.Keys <= pm.Keys && forall p | p in r :: r[p] == pm[p]
  {
    map p | p in pm && pm[p].owner !in dead :: pm[p]
  }

  /** The elements not in `dead`. */
  function KeepElems(m: map<ElemId, Element>, dead: set<ElemId>): (r: map<ElemId, Element>)
    ensures r.Keys == m.Keys - dead
    ensures forall e | e in r :: r[e] == m[e]
  {
    map e | e in m && e !in dead :: m[e]
  }

  lemma KeepAllPorts(pm: PortMap)
    ensures KeepPorts(pm, {}) == pm
  {
    assert KeepPorts(pm, {}).Keys == pm.Keys;
  }

  lemma KeepAllElems(m: map<ElemId, Element>)
    ensures KeepElems(m, {}) == m
  {
  }

  /** Every port owned by an element of `dead` is unconnected. */
  ghost predicate Unconnected(g: Chain, dead: set<ElemId>) {
    forall p | p in g.ports && g.ports[p].owner in dead :: g.ports[p].partner.None?
  }

  lemma DropElementsValid(g: Chain, dead: set<ElemId>)
    requires Valid(g) && Unconnected(g, dead)
    ensures Valid(DropElements(g, dead))
  {
    DropSymmetric(g, dead);
    DropCollections(g, dead);
    DropWellFormed(g, dead);
  }

  lemma DropSymmetric(g: Chain, dead: set<ElemId>)
    requires Symmetric(g.ports) && Unconnected(g, dead)
    ensures Symmetric(DropElements(g, dead).ports)
  {
    var pm' := DropElements(g, dead).ports;
    forall p | p in pm' && pm'[p].partner.Some? ensures pm'[p].partner.value in pm' {
      assert g.ports[g.ports[p].partner.value].partner == Some(p);
    }
  }

  lemma DropCollections(g: Chain, dead: set<ElemId>)
    requires Structured(g)
    ensures var g' := DropElements(g, dead);
      && (forall i | 0 <= i < |g'.elements| :: g'.elements[i] in g'.elems)
      && (forall i | 0 <= i < |g'.startNodes| :: g'.startNodes[i] in g'.elems)
      && (forall e | e in g'.elems :: e in g'.elements || e in g'.startNodes)
  {
    var g' := DropElements(g, dead);
    forall i | 0 <= i < |g'.elements| ensures g'.elements[i] in g'.elems {
      assert g'.elements[i] in g'.elements;
    }
    forall i | 0 <= i < |g'.startNodes| ensures g'.startNodes[i] in g'.elems {
      assert g'.startNodes[i] in g'.startNodes;
    }
    forall e | e in g'.elems ensures e in g'.elements || e in g'.startNodes {
      assert e in g.elements || e in g.startNodes;
    }
  }

  lemma DropWellFormed(g: Chain, dead: set<ElemId>)
    requires Structured(g)
    ensures var g' := DropElements(g, dead);
      forall e | e in g'.elems :: WellFormed(g'.ports, e, g'.elems[e])
  {
    var g' := DropElements(g, dead);
    forall e | e in g'.elems ensures WellFormed(g'.ports, e, g'.elems[e]) {
      assert WellFormed(g.ports, e, g.elems[e]);
      RestrictWellFormed(g.ports, g'.ports, e, g.elems[e]);
    }
  }

  /** An element stays well formed in a sub-arena that keeps all of its ports. */
  lemma RestrictWellFormed(pm: PortMap, pm': PortMap, e: ElemId, el: Element)
    requires WellFormed(pm, e, el)
    requires forall p | p in pm' :: p in pm && pm'[p] == pm[p]
    requires forall p | p in pm && pm[p].owner == e :: p in pm'
    ensures WellFormed(pm', e, el)
  {
    assert forall i | 0 <= i < |el.inPorts| :: el.inPorts[i] in pm';
    assert forall i | 0 <= i < |el.outPorts| :: el.outPorts[i] in pm';
  }

  /** The start nodes whose output is unconnected. */
  function DeadStarts(g: Chain): set<ElemId>
    requires Structured(g)
  {
    set s | s in g.startNodes && OutLink(g, s).None?
  }

  /** The first loop of `sanitizeChain`: deletes every start node whose output leads
      nowhere. */
  function Prune(g: Chain): (g': Chain)
    requires Structured(g)
    ensures g'.elems.Keys <= g.elems.Keys
    ensures forall s | s in g.elems && s !in g'.elems :: s in g.startNodes && OutLink(g, s).None?
    ensures forall s | s in g.startNodes && OutLink(g, s).None? :: s !in g'.elems
  {
    DropElements(g, DeadStarts(g))
  }

  /** A dead start node's one port is its unconnected output. */
  lemma DeadUnconnected(g: Chain)
    requires Valid(g)
    ensures Unconnected(g, DeadStarts(g))
  {
    forall p | p in g.ports && g.ports[p].owner in DeadStarts(g)
      ensures g.ports[p].partner.None?
    {
      var s := g.ports[p].owner;
      assert WellFormed(g.ports, s, g.elems[s]);
    }
  }

  lemma PruneValid(g: Chain)
    requires Valid(g)
    ensures Valid(Prune(g))
  {
    DeadUnconnected(g);
    DropElementsValid(g, DeadStarts(g));
  }

  /** Every start node's output is connected. */
  ghost predicate StartsLive(g: Chain)
    requires Structured(g)
  {
    forall i | 0 <= i < |g.startNodes| :: OutLink(g, g.startNodes[i]).Some?
  }

  /** Every input port of every ordinary element is connected. */
  ghost predicate InputsLinked(g: Chain)
    requires Structured(g)
  {
    forall i, j | 0 <= i < |g.elements| && 0 <= j < |g.elems[g.elements[i]].inPorts| ::
      g.elems[g.elements[i]].inPorts[j] in g.ports
      && g.ports[g.elems[g.elements[i]].inPorts[j]].partner.Some?
  }

  /** What `sanitizeChain` establishes. */
  ghost predicate Sane(g: Chain)
    requires Structured(g)
  {
    StartsLive(g) && InputsLinked(g)
  }

  /** Pruning keeps every link, every ordinary element and every live start node, and
      leaves only live start nodes. */
  lemma PruneKeeps(g: Chain)
    requires Valid(g)
    ensures Valid(Prune(g))
    ensures Prune(g).elements == g.elements
    ensures forall e | e in g.elements :: e in Prune(g).elems && Prune(g).elems[e] == g.elems[e]
    ensures forall p | p in g.ports && g.ports[p].partner.Some? ::
              p in Prune(g).ports && Prune(g).ports[p] == g.ports[p]
    ensures StartsLive(Prune(g))
  {
    var dead := DeadStarts(g);
    DeadUnconnected(g);
    PruneValid(g);
    assert forall i | 0 <= i < |g.elements| :: g.elements[i] !in g.startNodes;
    WithoutNothing(g.elements, dead);
    var g' := Prune(g);
    forall i | 0 <= i < |g'.startNodes| ensures OutLink(g', g'.startNodes[i]).Some? {
      var s := g'.startNodes[i];
      assert s in g.startNodes && s !in dead;
      assert WellFormed(g.ports, s, g.elems[s]);
    }
  }

  /** With every start node live, no start node is dead. */
  lemma NoDeadStarts(g: Chain)
    requires Structured(g) && StartsLive(g)
    ensures DeadStarts(g) == {}
  {
    forall s | s in DeadStarts(g) ensures false {
    }
  }

  /** Dropping no element changes nothing. */
  lemma DropNothing(g: Chain)
    ensures DropElements(g, {}) == g
  {
    WithoutNothing(g.elements, {});
    WithoutNothing(g.startNodes, {});
    KeepAllPorts(g.ports);
    KeepAllElems(g.elems);
  }

  /** With every start node live, pruning changes nothing. */
  lemma PruneFixed(g: Chain)
    requires Structured(g) && StartsLive(g)
    ensures Prune(g) == g
  {
    NoDeadStarts(g);
    DropNothing(g);
  }

  /** The input ports of the elements `es`, element by element, each element's ports in
      order: what the nested loops of the second half of `sanitizeChain` visit. */
  function Inputs(g: Chain, es: seq<ElemId>): (r: seq<PortId>)
    requires forall i | 0 <= i < |es| :: es[i] in g.elems
    decreases |es|
  {
    if es == [] then [] else Inputs(g, es[..|es| - 1]) + g.elems[es[|es| - 1]].inPorts
  }

  /** `Inputs` visits every input of every element of `es` and nothing else. */
  lemma {:induction false} InputsListed(g: Chain, es: seq<ElemId>)
    requires forall i | 0 <= i < |es| :: es[i] in g.elems
    ensures forall i, j | 0 <= i < |es| && 0 <= j < |g.elems[es[i]].inPorts| ::
              g.elems[es[i]].inPorts[j] in Inputs(g, es)
    ensures forall k | 0 <= k < |Inputs(g, es)| ::
              exists i | 0 <= i < |es| :: Inputs(g, es)[k] in g.elems[es[i]].inPorts
    decreases |es|
  {
    if es == [] {
      assert Inputs(g, es) == [];
    } else {
      var n := |es| - 1;
      var front := es[..n];
      InputsListed(g, front);
      var r := Inputs(g, es);
      assert r == Inputs(g, front) + g.elems[es[n]].inPorts;
      forall i, j | 0 <= i < |es| && 0 <= j < |g.elems[es[i]].inPorts|
        ensures g.elems[es[i]].inPorts[j] in r
      {
        if i < n {
          assert es[i] == front[i];
          assert g.elems[es[i]].inPorts[j] in Inputs(g, front);
        } else {
          assert r[|Inputs(g, front)| + j] == g.elems[es[i]].inPorts[j];
        }
      }
      forall k | 0 <= k < |r| ensures exists i | 0 <= i < |es| :: r[k] in g.elems[es[i]].inPorts {
        if k < |Inputs(g, front)| {
          assert r[k] == Inputs(g, front)[k];
          var i :| 0 <= i < |front| && r[k] in g.elems[front[i]].inPorts;
          assert es[i] == front[i];
          assert 0 <= i < |es| && r[k] in g.elems[es[i]].inPorts;
        } else {
          assert r[k] == g.elems[es[n]].inPorts[k - |Inputs(g, front)|];
          assert 0 <= n < |es| && r[k] in g.elems[es[n]].inPorts;
        }
      }
    }
  }

  /** Every input of an element is an input port of the arena. */
  lemma InputsPorts(g: Chain, es: seq<ElemId>)
    requires Structured(g) && forall i | 0 <= i < |es| :: es[i] in g.elems
    ensures forall k | 0 <= k < |Inputs(g, es)| ::
              Inputs(g, es)[k] in g.ports && g.ports[Inputs(g, es)[k]].IsInput()
  {
    InputsListed(g, es);
    forall k | 0 <= k < |Inputs(g, es)|
      ensures Inputs(g, es)[k] in g.ports && g.ports[Inputs(g, es)[k]].IsInput()
    {
      var i :| 0 <= i < |es| && Inputs(g, es)[k] in g.elems[es[i]].inPorts;
      assert WellFormed(g.ports, es[i], g.elems[es[i]]);
    }
  }

  /** The new start node `c.element` can feed `p`: it has an output 0, and `p` is an
      input. */
  ghost predicate Feedable(c: Created, p: PortId) {
    && Symmetric(c.chain.ports) && c.element in c.chain.elems
    && |c.chain.elems[c.element].outPorts| > 0
    && c.chain.elems[c.element].outPorts[0] in c.chain.ports
    && c.chain.ports[c.chain.elems[c.element].outPorts[0]].kind == Out
    && p in c.chain.ports && c.chain.ports[p].IsInput()
  }

  /** `start->getOutPort(0)->connect(port)`. */
  function LinkStart(c: Created, p: PortId): Created
    requires Feedable(c, p)
  {
    Created(c.chain.(ports := Connect(c.chain.ports, c.chain.elems[c.element].outPorts[0], p).ports),
            c.element)
  }

  /** Feeds the unconnected input `p` from a new start node, written with the source's
      own calls: `new SignalElement(nullptr)` (whose constructor runs `updateConnections`),
      added to `m_startNodes`, then `start->getOutPort(0)->connect(port)`. */
  function AttachStartAsCalls(g: Chain, p: PortId): (r: Created)
    requires Valid(g) && p in g.ports && g.ports[p].IsInput() && g.ports[p].partner.None?
  {
    var c := NewElement(g, None, NoCounts);
    NewElementValid(g, None, NoCounts);
    NewElementPorts(g, None, NoCounts);
    assert WellFormed(c.chain.ports, c.element, c.chain.elems[c.element]);
    LinkStart(c, p)
  }

  /** The new port record of a start node `s` whose output is linked to `p`. */
  function StartOut(s: ElemId, p: PortId): Port {
    Port(Out, Some(p), s, 0)
  }

  /** The same step spelled out: one new start node, the next element id, whose one new
      output, the next port id, is linked to `p`. */
  function AttachStart(g: Chain, p: PortId): (r: Created)
    requires Fresh(g.ports, g.nextPort) && p in g.ports && g.ports[p].partner.None?
    ensures r.element == g.nextElem && Fresh(r.chain.ports, r.chain.nextPort)
    ensures r.chain.elements == g.elements && r.chain.startNodes == g.startNodes + [r.element]
    ensures r.chain.elems.Keys == g.elems.Keys + {r.element}
    ensures forall e | e in g.elems && e != r.element :: r.chain.elems[e] == g.elems[e]
    ensures forall q | q in g.ports :: q in r.chain.ports && r.chain.ports[q].kind == g.ports[q].kind
    ensures r.chain.ports[p].partner.Some?
    ensures forall q | q in g.ports && q != p :: r.chain.ports[q] == g.ports[q]
  {
    var s := g.nextElem;
    var o := g.nextPort;
    Created(g.(ports := g.ports[o := StartOut(s, p)][p := g.ports[p].(partner := Some(o))],
               elems := g.elems[s := Element(None, [], [o])],
               startNodes := g.startNodes + [s],
               nextPort := o + 1, nextElem := s + 1), s)
  }

  /** The spelled-out step is exactly what the source's calls do. */
  lemma AttachStartIsCalls(g: Chain, p: PortId)
    requires Valid(g) && p in g.ports && g.ports[p].IsInput() && g.ports[p].partner.None?
    ensures AttachStart(g, p) == AttachStartAsCalls(g, p)
  {
    NewStart(g);
    LinkStartSpelled(g, p);
  }

  /** The chain right after `new SignalElement(nullptr)`: one new start node whose one
      output is new and unconnected. */
  function StartAdded(g: Chain): Chain {
    g.(ports := g.ports[g.nextPort := Port(Out, None, g.nextElem, 0)],
       elems := g.elems[g.nextElem := Element(None, [], [g.nextPort])],
       startNodes := g.startNodes + [g.nextElem],
       nextPort := g.nextPort + 1, nextElem := g.nextElem + 1)
  }

  /** `new SignalElement(nullptr)` in a valid chain. */
  lemma NewStart(g: Chain)
    requires Valid(g)
    ensures NewElement(g, None, NoCounts) == Created(StartAdded(g), g.nextElem)
  {
    var s := g.nextElem;
    var g1 := AddEmpty(g, None);
    var el := Element(None, [], []);
    assert WellFormed(g1.ports, s, el);
    StartPortsEmpty(g1.ports, g1.nextPort, s);
  }

  /** Linking the new start node's output to `p` gives the spelled-out step. */
  lemma LinkStartSpelled(g: Chain, p: PortId)
    requires Symmetric(g.ports) && Fresh(g.ports, g.nextPort)
    requires p in g.ports && g.ports[p].IsInput() && g.ports[p].partner.None?
    ensures Feedable(Created(StartAdded(g), g.nextElem), p)
    ensures LinkStart(Created(StartAdded(g), g.nextElem), p) == AttachStart(g, p)
  {
    var s := g.nextElem;
    var o := g.nextPort;
    var pm1 := StartAdded(g).ports;
    assert pm1[p] == g.ports[p];
    assert Symmetric(pm1);
    ConnectFree(pm1, o, p);
    assert Link(pm1, o, p) == g.ports[o := StartOut(s, p)][p := g.ports[p].(partner := Some(o))];
  }

  /** Feeding `p` keeps the chain valid and makes the new start node live. */
  lemma AttachStartStep(g: Chain, p: PortId)
    requires Valid(g) && p in g.ports && g.ports[p].IsInput() && g.ports[p].partner.None?
    ensures Valid(AttachStart(g, p).chain)
    ensures OutLink(AttachStart(g, p).chain, g.nextElem) == Some(p)
  {
    AttachStartIsCalls(g, p);
    var c := NewElement(g, None, NoCounts);
    NewElementValid(g, None, NoCounts);
    NewElementPorts(g, None, NoCounts);
    var s := c.element;
    assert WellFormed(c.chain.ports, s, c.chain.elems[s]);
    var out := c.chain.elems[s].outPorts[0];
    var pm' := Connect(c.chain.ports, out, p).ports;
    RelinkStructured(c.chain, pm');
    var r := AttachStart(g, p);
    assert r.chain == c.chain.(ports := pm');
  }

  /** Every port of `ps` is an input port of the arena. */
  ghost predicate InputIds(g: Chain, ps: seq<PortId>) {
    forall k | 0 <= k < |ps| :: ps[k] in g.ports && g.ports[ps[k]].IsInput()
  }

  /** One iteration of the inner loop of `sanitizeChain`: an unconnected input `p` is fed
      from a new start node; a connected one is left alone. */
  function PatchOne(g: Chain, p: PortId): (g': Chain)
    requires Fresh(g.ports, g.nextPort) && p in g.ports
    ensures Fresh(g'.ports, g'.nextPort)
    ensures g'.elements == g.elements && g.elems.Keys <= g'.elems.Keys
    ensures forall q | q in g.ports :: q in g'.ports && g'.ports[q].kind == g.ports[q].kind
    ensures g'.ports[p].partner.Some?
    ensures forall q | q in g.ports && (q != p || g.ports[q].partner.Some?) :: g'.ports[q] == g.ports[q]
    ensures g.nextElem <= g'.nextElem
    ensures g'.startNodes == g.startNodes || g'.startNodes == g.startNodes + [g.nextElem]
  {
    if g.ports[p].partner.Some? then g else AttachStart(g, p).chain
  }

  lemma PatchOneValid(g: Chain, p: PortId)
    requires Valid(g) && p in g.ports && g.ports[p].IsInput()
    ensures Valid(PatchOne(g, p))
    ensures forall e | e in g.elems :: PatchOne(g, p).elems[e] == g.elems[e]
    ensures StartsLive(g) ==> StartsLive(PatchOne(g, p))
  {
    if g.ports[p].partner.None? {
      AttachStartStep(g, p);
      assert g.nextElem !in g.elems;
      AttachStartLive(g, p);
    }
  }

  /** A new start node keeps every start node live that was. */
  lemma AttachStartLive(g: Chain, p: PortId)
    requires Valid(g) && p in g.ports && g.ports[p].IsInput() && g.ports[p].partner.None?
    ensures Valid(AttachStart(g, p).chain)
    ensures StartsLive(g) ==> StartsLive(AttachStart(g, p).chain)
  {
    AttachStartStep(g, p);
    var r := AttachStart(g, p);
    if StartsLive(g) {
      forall i | 0 <= i < |r.chain.startNodes| ensures OutLink(r.chain, r.chain.startNodes[i]).Some? {
        if i < |g.startNodes| {
          var s := g.startNodes[i];
          assert OutLink(g, s).Some?;
          assert WellFormed(g.ports, s, g.elems[s]);
          assert s != r.element;
        }
      }
    }
  }

  /** The loops of the second half of `sanitizeChain` over the inputs `ps`, in order. */
  function PatchPorts(g: Chain, ps: seq<PortId>): (g': Chain)
    requires Fresh(g.ports, g.nextPort) && forall k | 0 <= k < |ps| :: ps[k] in g.ports
    ensures Fresh(g'.ports, g'.nextPort)
    ensures g'.elements == g.elements && g.elems.Keys <= g'.elems.Keys
    ensures forall q | q in g.ports :: q in g'.ports && g'.ports[q].kind == g.ports[q].kind
    ensures g.nextElem <= g'.nextElem
    decreases |ps|
  {
    if ps == [] then g
    else PatchOne(PatchPorts(g, ps[..|ps| - 1]), ps[|ps| - 1])
  }

  /** Patching keeps the chain valid, every old element as it was, and live start nodes
      live. */
  lemma {:induction false} PatchPortsValid(g: Chain, ps: seq<PortId>)
    requires Valid(g) && InputIds(g, ps)
    ensures Valid(PatchPorts(g, ps))
    ensures forall e | e in g.elems :: PatchPorts(g, ps).elems[e] == g.elems[e]
    ensures StartsLive(g) ==> StartsLive(PatchPorts(g, ps))
    decreases |ps|
  {
    if ps != [] {
      var front := ps[..|ps| - 1];
      assert InputIds(g, front) by {
        assert forall k | 0 <= k < |front| :: front[k] == ps[k];
      }
      PatchPortsValid(g, front);
      PatchOneValid(PatchPorts(g, front), ps[|ps| - 1]);
    }
  }

  /** Patching connects every port of `ps`. */
  lemma {:induction false} PatchPortsConnects(g: Chain, ps: seq<PortId>)
    requires Fresh(g.ports, g.nextPort) && forall k | 0 <= k < |ps| :: ps[k] in g.ports
    ensures forall k | 0 <= k < |ps| :: PatchPorts(g, ps).ports[ps[k]].partner.Some?
    decreases |ps|
  {
    if ps != [] {
      var front := ps[..|ps| - 1];
      assert forall k | 0 <= k < |front| :: front[k] == ps[k];
      PatchPortsConnects(g, front);
    }
  }

  /** Patching changes no old port except unconnected ones of `ps`. */
  lemma {:induction false} PatchPortsKeeps(g: Chain, ps: seq<PortId>)
    requires Fresh(g.ports, g.nextPort) && forall k | 0 <= k < |ps| :: ps[k] in g.ports
    ensures forall q | q in g.ports && (q !in ps || g.ports[q].partner.Some?) ::
              PatchPorts(g, ps).ports[q] == g.ports[q]
    decreases |ps|
  {
    if ps != [] {
      var front := ps[..|ps| - 1];
      assert forall k | 0 <= k < |front| :: front[k] == ps[k];
      PatchPortsKeeps(g, front);
      forall q | q in g.ports && (q !in ps || g.ports[q].partner.Some?)
        ensures PatchPorts(g, ps).ports[q] == g.ports[q]
      {
        assert q !in front || g.ports[q].partner.Some?;
      }
    }
  }

  /** Patching only appends start nodes, each a new element. */
  lemma {:induction false} PatchPortsPrefix(g: Chain, ps: seq<PortId>)
    requires Fresh(g.ports, g.nextPort) && forall k | 0 <= k < |ps| :: ps[k] in g.ports
    ensures var s' := PatchPorts(g, ps).startNodes;
      && |g.startNodes| <= |s'| && s'[..|g.startNodes|] == g.startNodes
      && forall i | |g.startNodes| <= i < |s'| :: g.nextElem <= s'[i]
    decreases |ps|
  {
    if ps != [] {
      var front := ps[..|ps| - 1];
      assert forall k | 0 <= k < |front| :: front[k] == ps[k];
      PatchPortsPrefix(g, front);
      var s1 := PatchPorts(g, front).startNodes;
      var s2 := PatchPorts(g, ps).startNodes;
      assert s2[..|s1|] == s1;
      assert s2[..|g.startNodes|] == s1[..|g.startNodes|];
    }
  }

  /** With every port of `ps` connected, patching changes nothing. */
  lemma {:induction false} PatchNothing(g: Chain, ps: seq<PortId>)
    requires Fresh(g.ports, g.nextPort)
    requires forall k | 0 <= k < |ps| :: ps[k] in g.ports && g.ports[ps[k]].partner.Some?
    ensures PatchPorts(g, ps) == g
    decreases |ps|
  {
    if ps != [] {
      var front := ps[..|ps| - 1];
      assert forall k | 0 <= k < |front| :: front[k] == ps[k];
      PatchNothing(g, front);
    }
  }

  /** `SignalChainManager::sanitizeChain`: prune dead start nodes, then feed every
      unconnected input of every ordinary element from a new start node. */
  function Sanitize(g: Chain): (g': Chain)
    requires Valid(g)
    ensures g'.elements == g.elements
  {
    var g1 := Prune(g);
    PruneKeeps(g);
    InputsPorts(g1, g1.elements);
    PatchPorts(g1, Inputs(g1, g1.elements))
  }

  lemma SanitizeValid(g: Chain)
    requires Valid(g)
    ensures Valid(Sanitize(g))
  {
    var g1 := Prune(g);
    PruneKeeps(g);
    InputsPorts(g1, g1.elements);
    PatchPortsValid(g1, Inputs(g1, g1.elements));
  }

  /** After `sanitizeChain` every start node feeds something and every input of every
      ordinary element is connected. */
  lemma SanitizeSane(g: Chain)
    requires Valid(g)
    ensures Valid(Sanitize(g)) && Sane(Sanitize(g))
  {
    var g1 := Prune(g);
    PruneKeeps(g);
    var ps := Inputs(g1, g1.elements);
    InputsPorts(g1, g1.elements);
    InputsListed(g1, g1.elements);
    PatchPortsValid(g1, ps);
    PatchPortsConnects(g1, ps);
    var g' := Sanitize(g);
    forall i, j | 0 <= i < |g'.elements| && 0 <= j < |g'.elems[g'.elements[i]].inPorts|
      ensures g'.elems[g'.elements[i]].inPorts[j] in g'.ports
      ensures g'.ports[g'.elems[g'.elements[i]].inPorts[j]].partner.Some?
    {
      var e := g1.elements[i];
      assert g'.elems[e] == g1.elems[e];
      var q := g1.elems[e].inPorts[j];
      var k :| 0 <= k < |ps| && ps[k] == q;
    }
  }

  /** `sanitizeChain` keeps every existing link and every ordinary element as it was. */
  lemma SanitizeKeeps(g: Chain)
    requires Valid(g)
    ensures forall q | q in g.ports && g.ports[q].partner.Some? ::
              q in Sanitize(g).ports && Sanitize(g).ports[q] == g.ports[q]
    ensures forall e | e in g.elements :: e in Sanitize(g).elems && Sanitize(g).elems[e] == g.elems[e]
  {
    var g1 := Prune(g);
    PruneKeeps(g);
    var ps := Inputs(g1, g1.elements);
    InputsPorts(g1, g1.elements);
    PatchPortsValid(g1, ps);
    PatchPortsKeeps(g1, ps);
  }

  /** The start nodes after `sanitizeChain`: the old ones whose output is connected, in
      their order, then new ones. */
  lemma SanitizeStarts(g: Chain)
    requires Valid(g)
    ensures var s' := Sanitize(g).startNodes;
      && var live := Without(g.startNodes, DeadStarts(g));
      && |live| <= |s'| && s'[..|live|] == live
      && forall i | |live| <= i < |s'| :: s'[i] !in g.elems
  {
    var g1 := Prune(g);
    PruneKeeps(g);
    var ps := Inputs(g1, g1.elements);
    InputsPorts(g1, g1.elements);
    PatchPortsPrefix(g1, ps);
  }

  /** A chain that is already sane is left alone. */
  lemma SaneFixed(g: Chain)
    requires Valid(g) && Sane(g)
    ensures Sanitize(g) == g
  {
    PruneFixed(g);
    var ps := Inputs(g, g.elements);
    InputsListed(g, g.elements);
    InputsPorts(g, g.elements);
    forall k | 0 <= k < |ps| ensures g.ports[ps[k]].partner.Some? {
      var i :| 0 <= i < |g.elements| && ps[k] in g.elems[g.elements[i]].inPorts;
      var j :| 0 <= j < |g.elems[g.elements[i]].inPorts| && g.elems[g.elements[i]].inPorts[j] == ps[k];
    }
    PatchNothing(g, ps);
  }

  /** Sanitizing twice is sanitizing once. */
  lemma SanitizeIdempotent(g: Chain)
    requires Valid(g)
    ensures Valid(Sanitize(g)) && Sanitize(Sanitize(g)) == Sanitize(g)
  {
    SanitizeSane(g);
    SaneFixed(Sanitize(g));
  }
}

/**
  Ports of the signal-chain graph, held in an arena: a map from port ids to port records.
  A port has at most one partner; the partner relation is kept symmetric and only ever
  links an output port to an input port.
 */
module Ports {
  import opened Wrappers

  type PortId = nat
  type ElemId = nat

  /** The three port classes of the source: `InPort`, its `SourcePort` subclass, and
      `OutPort`. */
  datatype Kind = In | Source | Out

  /** A port record. `owner` is the element whose port array holds the port;
      `numChannels` is the count stored by an output port (inputs never read it). */
  datatype Port = Port(kind: Kind, partner: Option<PortId>, owner: ElemId, numChannels: nat)
  {
    /** Both `InPort` and its `SourcePort` subclass are inputs. */
    predicate IsInput() { kind != Out }

    /** `acceptsConnections`: true for an ordinary input, false for a source port. */
    predicate AcceptsConnections() { kind == In }
  }

  type PortMap = map<PortId, Port>

  /** Links only join an input to an output (the typed `connect` overloads). */
  predicate Complementary(a: Port, b: Port) {
    a.IsInput() != b.IsInput()
  }

  /** Every partner exists, points back, and has the opposite direction. */
  ghost predicate Symmetric(pm: PortMap) {
    forall p | p in pm && pm[p].partner.Some? ::
      && pm[p].partner.value in pm
      && pm[pm[p].partner.value].partner == Some(p)
      && Complementary(pm[p], pm[pm[p].partner.value])
  }

  /** `b` is `a` with, at most, a different partner. */
  predicate SamePort(a: Port, b: Port) {
    a.kind == b.kind && a.owner == b.owner && a.numChannels == b.numChannels
  }

  /** Same ports, each with the same class, owner and channel count. */
  ghost predicate SameShape(pm: PortMap, pm': PortMap) {
    && pm.Keys == pm'.Keys
    && forall p | p in pm :: SamePort(pm[p], pm'[p])
  }

  /** A link survives unless its other end was dropped from `pm'`. */
  function Cleared(o: Option<PortId>, pm': PortMap): Option<PortId> {
    if o.Some? && o.value !in pm' then None else o
  }

  /** Ports present before and after keep everything except links into dropped ports. */
  ghost predicate KeepsLinks(pm: PortMap, pm': PortMap) {
    forall p | p in pm && p in pm' :: pm'[p] == pm[p].(partner := Cleared(pm[p].partner, pm'))
  }

  /** The new map of ports after an edit, and the pointer the edit returns. */
  datatype Edit = Edit(ports: PortMap, previous: Option<PortId>)

  /** `Port::getConnection`. */
  function GetConnection(pm: PortMap, a: PortId): (r: Option<PortId>)
    requires Symmetric(pm) && a in pm
    ensures r.Some? ==> r.value in pm && pm[r.value].partner == Some(a)
    ensures r.Some? ==> Complementary(pm[a], pm[r.value])
  {
    pm[a].partner
  }

  /** `Port::disconnect`: unlinks both ends and returns the old partner. On an unconnected
      port it changes nothing and returns `None` (the source dereferences null there). */
  function Disconnect(pm: PortMap, a: PortId): (r: Edit)
    requires Symmetric(pm) && a in pm
    ensures Symmetric(r.ports) && SameShape(pm, r.ports)
    ensures r.previous == pm[a].partner
    ensures r.ports[a].partner.None?
    ensures r.previous.Some? ==> r.ports[r.previous.value].partner.None?
    ensures r.previous.Some? ==> Complementary(pm[a], pm[r.previous.value])
    ensures forall p | p in pm && p != a && Some(p) != pm[a].partner :: r.ports[p] == pm[p]
  {
    match pm[a].partner
    case None => Edit(pm, None)
    case Some(b) =>
      Edit(pm[a := pm[a].(partner := None)][b := pm[b].(partner := None)], Some(b))
  }

  /** `Port::connect`: a no-op returning `dest` when `dest` already is the partner;
      otherwise both ends are first disconnected, then linked. The result is the CALLER's
      former partner. */
  function Connect(pm: PortMap, a: PortId, dest: PortId): (r: Edit)
    requires Symmetric(pm) && a in pm && dest in pm && Complementary(pm[a], pm[dest])
    ensures Symmetric(r.ports) && SameShape(pm, r.ports)
    ensures pm[a].partner == Some(dest) ==> r == Edit(pm, Some(dest))
    ensures r.previous == pm[a].partner
    ensures r.ports[a].partner == Some(dest) && r.ports[dest].partner == Some(a)
    ensures pm[a].partner.Some? && pm[a].partner != Some(dest) ==>
              r.ports[pm[a].partner.value].partner.None?
    ensures pm[dest].partner.Some? && pm[dest].partner != Some(a) ==>
              r.ports[pm[dest].partner.value].partner.None?
    ensures forall p | p in pm && p != a && p != dest && Some(p) != pm[a].partner
                     && Some(p) != pm[dest].partner :: r.ports[p] == pm[p]
  {
    if pm[a].partner == Some(dest) then Edit(pm, Some(dest))
    else
      var d1 := Disconnect(pm, a);
      assert d1.ports[dest] == pm[dest];
      var d2 := Disconnect(d1.ports, dest);
      assert d2.previous == pm[dest].partner;
      assert pm[dest].partner.Some? ==> pm[dest].partner != pm[a].partner;
      Edit(Link(d2.ports, a, dest), pm[a].partner)
  }

  /** Connecting two unconnected ports only links them. */
  lemma ConnectFree(pm: PortMap, a: PortId, dest: PortId)
    requires Symmetric(pm) && a in pm && dest in pm && Complementary(pm[a], pm[dest])
    requires pm[a].partner.None? && pm[dest].partner.None?
    ensures Connect(pm, a, dest) == Edit(Link(pm, a, dest), None)
  {
  }

  /** `Port::disconnect` as the source writes it: it clears the partner's back pointer
      without checking that there is a partner, so on an unconnected port it dereferences
      null, modelled as `None`. */
  function DisconnectAsWritten(pm: PortMap, a: PortId): (r: Option<Edit>)
    requires Symmetric(pm) && a in pm
    ensures r.None? <==> pm[a].partner.None?
  {
    if pm[a].partner.None? then None else Some(Disconnect(pm, a))
  }

  /** `Port::connect` as the source writes it: both `disconnect` calls are unguarded. */
  function ConnectAsWritten(pm: PortMap, a: PortId, dest: PortId): (r: Option<Edit>)
    requires Symmetric(pm) && a in pm && dest in pm && Complementary(pm[a], pm[dest])
    ensures r.None? ==> pm[a].partner.None? || pm[dest].partner.None?
    ensures r.Some? ==> r.value.previous == pm[a].partner
  {
    if pm[a].partner == Some(dest) then Some(Edit(pm, Some(dest)))
    else
      match DisconnectAsWritten(pm, a)
      case None => None
      case Some(d1) =>
        match DisconnectAsWritten(d1.ports, dest)
        case None => None
        case Some(d2) =>
          if d2.ports[a].partner.None? && d2.ports[dest].partner.None? then
            Some(Edit(Link(d2.ports, a, dest), pm[a].partner))
          else None
  }

  /** As written, `connect` fails exactly when the two ports are not already linked and one
      of them is free; when it does not fail it agrees with `Connect`. */
  lemma ConnectAsWrittenFails(pm: PortMap, a: PortId, dest: PortId)
    requires Symmetric(pm) && a in pm && dest in pm && Complementary(pm[a], pm[dest])
    ensures var r := ConnectAsWritten(pm, a, dest);
      && (r.None? <==> pm[a].partner != Some(dest) && (pm[a].partner.None? || pm[dest].partner.None?))
      && (r.Some? ==> r.value == Connect(pm, a, dest))
  {
    if pm[a].partner != Some(dest) && pm[a].partner.Some? {
      var d1 := Disconnect(pm, a);
      assert d1.ports[dest] == pm[dest];
    }
  }

  /** The input that shows it: connecting a fresh output to a fresh input, which is what
      `sanitizeChain` does for every new start node, crashes as written, while `Connect`
      links the two ports. */
  lemma FreshConnectCrashes()
    ensures var pm := map[0 := Port(Out, None, 0, 0), 1 := Port(In, None, 1, 0)];
      && Symmetric(pm)
      && ConnectAsWritten(pm, 0, 1).None?
      && Connect(pm, 0, 1).ports == map[0 := Port(Out, Some(1), 0, 0), 1 := Port(In, Some(0), 1, 0)]
  {
    var pm := map[0 := Port(Out, None, 0, 0), 1 := Port(In, None, 1, 0)];
    ConnectFree(pm, 0, 1);
  }

  /** Links two unconnected ports of opposite directions to each other. */
  function Link(pm: PortMap, a: PortId, b: PortId): (r: PortMap)
    requires Symmetric(pm) && a in pm && b in pm && Complementary(pm[a], pm[b])
    requires pm[a].partner.None? && pm[b].partner.None?
    ensures Symmetric(r) && SameShape(pm, r)
    ensures r[a].partner == Some(b) && r[b].partner == Some(a)
    ensures forall p | p in pm && p != a && p != b :: r[p] == pm[p]
  {
    pm[a := pm[a].(partner := Some(b))][b := pm[b].(partner := Some(a))]
  }

  /** `Port::getNumChannels`: an output reports its stored count; an input reads through
      to its partner, or reports 0 when unconnected. */
  function NumChannels(pm: PortMap, a: PortId): (r: nat)
    requires a in pm
    ensures pm[a].kind == Out ==> r == pm[a].numChannels
    ensures pm[a].IsInput() && pm[a].partner.None? ==> r == 0
  {
    if pm[a].kind == Out then pm[a].numChannels
    else
      match pm[a].partner
      case Some(b) => if b in pm && pm[b].kind == Out then pm[b].numChannels else 0
      case None => 0
  }

  /** `OutPort::updateChannelCount`. */
  function UpdateChannelCount(pm: PortMap, a: PortId, n: nat): (r: PortMap)
    requires a in pm && pm[a].kind == Out
    ensures r.Keys == pm.Keys && r[a].kind == Out
    ensures r[a].partner == pm[a].partner && r[a].owner == pm[a].owner
    ensures NumChannels(r, a) == n
    ensures forall p | p in pm && p != a :: r[p] == pm[p]
  {
    pm[a := pm[a].(numChannels := n)]
  }

  /** An input reports the count of the output it is linked to, or 0 when unconnected. */
  lemma InputReadsThrough(pm: PortMap, a: PortId)
    requires Symmetric(pm) && a in pm && pm[a].IsInput()
    ensures pm[a].partner.Some? ==> NumChannels(pm, a) == pm[pm[a].partner.value].numChannels
    ensures pm[a].partner.None? ==> NumChannels(pm, a) == 0
  {
  }

  /** After `connect`, the input end reports the output end's count, which the link did
      not change; after `disconnect`, an input reports 0. */
  lemma ConnectedChannels(pm: PortMap, a: PortId, dest: PortId)
    requires Symmetric(pm) && a in pm && dest in pm && Complementary(pm[a], pm[dest])
    ensures var r := Connect(pm, a, dest).ports;
      var (i, o) := if pm[a].IsInput() then (a, dest) else (dest, a);
      NumChannels(r, i) == NumChannels(r, o) == NumChannels(pm, o)
    ensures pm[a].IsInput() ==> NumChannels(Disconnect(pm, a).ports, a) == 0
  {
  }

  /** Setting an output's count is seen by the input linked to it. */
  lemma CountReachesInput(pm: PortMap, a: PortId, n: nat)
    requires Symmetric(pm) && a in pm && pm[a].kind == Out && pm[a].partner.Some?
    ensures NumChannels(UpdateChannelCount(pm, a, n), pm[a].partner.value) == n
  {
  }

  /** A link survives unless its other end is among `ids`. */
  function Unlinked(o: Option<PortId>, ids: seq<PortId>): Option<PortId> {
    if o.Some? && o.value in ids then None else o
  }

  /** Disconnects the ports `ids` one after the other, as the loops of the source do. */
  function DisconnectAll(pm: PortMap, ids: seq<PortId>): (r: PortMap)
    requires Symmetric(pm)
    requires forall i | 0 <= i < |ids| :: ids[i] in pm
    ensures Symmetric(r) && SameShape(pm, r)
    ensures forall p | p in pm && p in ids :: r[p].partner.None?
    ensures forall p | p in pm && p !in ids :: r[p] == pm[p].(partner := Unlinked(pm[p].partner, ids))
    decreases |ids|
  {
    if ids == [] then pm
    else
      var d := Disconnect(pm, ids[0]);
      var r := DisconnectAll(d.ports, ids[1..]);
      DisconnectedFirst(pm, ids, d.ports, r);
      DisconnectedOthers(pm, ids, d.ports, r);
      r
  }

  /** One step of `DisconnectAll`: the ports in `ids` end unconnected. */
  lemma DisconnectedFirst(pm: PortMap, ids: seq<PortId>, d: PortMap, r: PortMap)
    requires Symmetric(pm) && |ids| > 0 && ids[0] in pm
    requires d == Disconnect(pm, ids[0]).ports && r.Keys == d.Keys
    requires forall p | p in d && p in ids[1..] :: r[p].partner.None?
    requires forall p | p in d && p !in ids[1..] :: r[p] == d[p].(partner := Unlinked(d[p].partner, ids[1..]))
    ensures forall p | p in pm && p in ids :: r[p].partner.None?
  {
    forall p | p in pm && p in ids ensures r[p].partner.None? {
      if p !in ids[1..] {
        assert p == ids[0];
      }
    }
  }

  /** One step of `DisconnectAll`: every other port loses only its links into `ids`. */
  lemma DisconnectedOthers(pm: PortMap, ids: seq<PortId>, d: PortMap, r: PortMap)
    requires Symmetric(pm) && |ids| > 0 && ids[0] in pm
    requires d == Disconnect(pm, ids[0]).ports && r.Keys == d.Keys
    requires forall p | p in d && p !in ids[1..] :: r[p] == d[p].(partner := Unlinked(d[p].partner, ids[1..]))
    ensures forall p | p in pm && p !in ids :: r[p] == pm[p].(partner := Unlinked(pm[p].partner, ids))
  {
    forall p | p in pm && p !in ids
      ensures r[p] == pm[p].(partner := Unlinked(pm[p].partner, ids))
    {
      assert p !in ids[1..];
      if Some(p) == pm[ids[0]].partner {
        assert pm[p].partner == Some(ids[0]);
      }
    }
  }

  /** Destroys the ports `ids`: each is disconnected (the port destructor) and dropped. */
  function RemovePorts(pm: PortMap, ids: seq<PortId>): (r: PortMap)
    requires Symmetric(pm)
    ensures Symmetric(r)
    ensures r.Keys == pm.Keys - (set x | x in ids)
    ensures forall p | p in r :: r[p] == pm[p].(partner := Unlinked(pm[p].partner, ids))
    decreases |ids|
  {
    if ids == [] then pm
    else if ids[0] in pm then RemovePorts(Disconnect(pm, ids[0]).ports - {ids[0]}, ids[1..])
    else RemovePorts(pm, ids[1..])
  }

  /** Disconnecting either end of a fresh link undoes it. */
  lemma UnlinkUndoesLink(pm: PortMap, a: PortId, b: PortId)
    requires Symmetric(pm) && a in pm && b in pm && Complementary(pm[a], pm[b])
    requires pm[a].partner.None? && pm[b].partner.None?
    ensures Disconnect(Link(pm, a, b), a) == Edit(pm, Some(b))
    ensures Disconnect(Link(pm, a, b), b) == Edit(pm, Some(a))
  {
    var l := Link(pm, a, b);
    assert Disconnect(l, a).ports == pm by {
      assert forall p | p in pm :: Disconnect(l, a).ports[p] == pm[p];
    }
    assert Disconnect(l, b).ports == pm by {
      assert forall p | p in pm :: Disconnect(l, b).ports[p] == pm[p];
    }
  }

  /** Disconnecting ports that are all unconnected changes nothing. */
  lemma DisconnectAllFree(pm: PortMap, ids: seq<PortId>)
    requires Symmetric(pm)
    requires forall i | 0 <= i < |ids| :: ids[i] in pm && pm[ids[i]].partner.None?
    ensures DisconnectAll(pm, ids) == pm
  {
    var r := DisconnectAll(pm, ids);
    forall p | p in pm ensures r[p] == pm[p] {
      if p !in ids && pm[p].partner.Some? {
        assert pm[p].partner.value !in ids;
      }
    }
  }
}

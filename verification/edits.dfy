/**
  The structural edits of `SignalChainManager`: splicing an element in after an output
  or before an input (`placeElement`), detaching it (`detachElement`), removing it
  (`removeProcessor`), and the `addProcessor` / `moveProcessor` entry points built on them.
  The port work is stated on the arena alone; the chain-level functions wrap it.
 */
module ChainEdits {
  import opened Wrappers
  import opened Ports
  import opened SignalElements
  import opened SignalChain
  import opened ChainSanitize

  /** The port arrays of an ordinary element as the edits see them: at least one input,
      every listed port an existing port of the right direction. */
  ghost predicate Arrays(pm: PortMap, ins: seq<PortId>, outs: seq<PortId>) {
    && Symmetric(pm) && |ins| > 0
    && (forall i | 0 <= i < |ins| :: ins[i] in pm && pm[ins[i]].IsInput())
    && (forall i | 0 <= i < |outs| :: outs[i] in pm && pm[outs[i]].kind == Out)
  }

  /** Every listed port is unconnected: an element fresh from `createElement` or
      `detachElement`. */
  ghost predicate Loose(pm: PortMap, ids: seq<PortId>) {
    forall i | 0 <= i < |ids| :: ids[i] in pm && pm[ids[i]].partner.None?
  }

  /** `placeElement(element, afterPort)` on the arena: `afterPort` is connected to input 0,
      and whatever it fed before is connected to output 0. Without output 0 the second
      call is `old->connect(nullptr)` on a now unconnected port, which does nothing; with
      nothing fed before the source dereferences null, and the model does nothing. */
  function SpliceAfterPorts(pm: PortMap, ins: seq<PortId>, outs: seq<PortId>, after: PortId): (r: PortMap)
    requires Arrays(pm, ins, outs) && after in pm && pm[after].kind == Out
    ensures Symmetric(r) && SameShape(pm, r)
  {
    var c := Connect(pm, after, ins[0]);
    if c.previous.Some? && |outs| > 0 then Connect(c.ports, c.previous.value, outs[0]).ports
    else c.ports
  }

  /** `placeElement(element, beforePort)` on the arena: output 0 is connected to
      `beforePort`, and whatever fed `beforePort` before is connected to input 0. Without
      output 0, or with nothing fed before, the source dereferences null; the model does
      nothing there. */
  function SpliceBeforePorts(pm: PortMap, ins: seq<PortId>, outs: seq<PortId>, before: PortId): (r: PortMap)
    requires Arrays(pm, ins, outs) && before in pm && pm[before].IsInput()
    ensures Symmetric(r) && SameShape(pm, r)
  {
    if |outs| == 0 then pm
    else
      var c := Connect(pm, before, outs[0]);
      if c.previous.Some? then Connect(c.ports, c.previous.value, ins[0]).ports else c.ports
  }

  /** `detachElement` on the arena: input 0 and output 0 are disconnected, what fed input 0
      is connected to what output 0 fed, and every other port of the element is
      disconnected. Where the source dereferences null (no output 0, nothing on either
      end) the model skips that call. */
  function DetachPorts(pm: PortMap, ins: seq<PortId>, outs: seq<PortId>): (r: PortMap)
    requires Arrays(pm, ins, outs)
    ensures Symmetric(r) && SameShape(pm, r)
  {
    OthersIn(pm, ins, outs);
    DisconnectAll(DetachEnds(pm, ins, outs), Others(ins, outs))
  }

  /** The first three calls of `detachElement`: disconnect input 0, disconnect output 0,
      connect the two former partners. */
  function DetachEnds(pm: PortMap, ins: seq<PortId>, outs: seq<PortId>): (r: PortMap)
    requires Arrays(pm, ins, outs)
    ensures Symmetric(r) && SameShape(pm, r)
  {
    var d1 := Disconnect(pm, ins[0]);
    var d2 := if |outs| > 0 then Disconnect(d1.ports, outs[0]) else Edit(d1.ports, None);
    Bridge(d2.ports, d1.previous, d2.previous)
  }

  /** The ports the two loops of `detachElement` disconnect: all but input 0 and output 0. */
  function Others(ins: seq<PortId>, outs: seq<PortId>): (r: seq<PortId>)
    requires |ins| > 0
    ensures forall p :: p in r <==> p in ins[1..] || (|outs| > 0 && p in outs[1..])
  {
    ins[1..] + if |outs| > 0 then outs[1..] else []
  }

  lemma OthersIn(pm: PortMap, ins: seq<PortId>, outs: seq<PortId>)
    requires Arrays(pm, ins, outs)
    ensures forall i | 0 <= i < |Others(ins, outs)| :: Others(ins, outs)[i] in pm
  {
    var r := Others(ins, outs);
    forall i | 0 <= i < |r| ensures r[i] in pm {
      assert r[i] in r;
    }
  }

  /** `previous->connect(next)`, skipped when either is null. */
  function Bridge(pm: PortMap, previous: Option<PortId>, next: Option<PortId>): (r: PortMap)
    requires Symmetric(pm)
    requires previous.Some? ==> previous.value in pm && pm[previous.value].kind == Out
    requires next.Some? ==> next.value in pm && pm[next.value].IsInput()
    ensures Symmetric(r) && SameShape(pm, r)
  {
    if previous.Some? && next.Some? then Connect(pm, previous.value, next.value).ports else pm
  }

  /** Input 0 and, if there is one, output 0 are unconnected. */
  ghost predicate EndsLoose(pm: PortMap, ins: seq<PortId>, outs: seq<PortId>)
    requires Arrays(pm, ins, outs)
  {
    pm[ins[0]].partner.None? && (|outs| > 0 ==> pm[outs[0]].partner.None?)
  }

  /** Splicing a loose element in after `after`: `after` feeds input 0 and output 0 feeds
      what `after` fed; no other port changes. */
  lemma SpliceAfterLinks(pm: PortMap, ins: seq<PortId>, outs: seq<PortId>, after: PortId)
    requires Arrays(pm, ins, outs) && after in pm && pm[after].kind == Out
    requires EndsLoose(pm, ins, outs)
    ensures var r := SpliceAfterPorts(pm, ins, outs, after);
      var x := pm[after].partner;
      && r[after].partner == Some(ins[0]) && r[ins[0]].partner == Some(after)
      && (|outs| > 0 && after != outs[0] ==> r[outs[0]].partner == x)
      && (x.Some? && |outs| > 0 ==> r[x.value].partner == Some(outs[0]))
      && (x.Some? && |outs| == 0 ==> r[x.value].partner.None?)
      && forall q | q in pm && q != after && q != ins[0] && Some(q) != x && (|outs| > 0 ==> q != outs[0]) ::
           r[q] == pm[q]
  {
    var x := pm[after].partner;
    var c := Connect(pm, after, ins[0]);
    if |outs| > 0 && after != outs[0] {
      assert c.ports[outs[0]] == pm[outs[0]];
    }
    if x.Some? {
      assert x != Some(ins[0]);
      if |outs| > 0 {
        assert after != outs[0];
        assert c.ports[outs[0]] == pm[outs[0]];
        ConnectFree(c.ports, x.value, outs[0]);
      }
    }
  }

  /** Splicing a loose element in before `before`: output 0 feeds `before` and input 0 is
      fed by what fed `before`; no other port changes. Without output 0 nothing changes. */
  lemma SpliceBeforeLinks(pm: PortMap, ins: seq<PortId>, outs: seq<PortId>, before: PortId)
    requires Arrays(pm, ins, outs) && before in pm && pm[before].IsInput()
    requires EndsLoose(pm, ins, outs)
    ensures var r := SpliceBeforePorts(pm, ins, outs, before);
      var y := pm[before].partner;
      && (|outs| == 0 ==> r == pm)
      && (|outs| > 0 ==> r[before].partner == Some(outs[0]) && r[outs[0]].partner == Some(before))
      && (|outs| > 0 && before != ins[0] ==> r[ins[0]].partner == y)
      && (|outs| > 0 && y.Some? ==> r[y.value].partner == Some(ins[0]))
      && forall q | q in pm && q != before && q != ins[0] && Some(q) != y && (|outs| > 0 ==> q != outs[0]) ::
           r[q] == pm[q]
  {
    var y := pm[before].partner;
    if |outs| > 0 {
      var c := Connect(pm, before, outs[0]);
      if before != ins[0] {
        assert c.ports[ins[0]] == pm[ins[0]];
      }
      if y.Some? {
        assert y != Some(outs[0]);
        assert before != ins[0];
        assert c.ports[ins[0]] == pm[ins[0]];
        ConnectFree(c.ports, y.value, ins[0]);
      }
    }
  }

  /** The bridge `detachElement` builds: what fed input 0 and what output 0 fed. */
  function Feeder(pm: PortMap, ins: seq<PortId>): Option<PortId> {
    if |ins| > 0 && ins[0] in pm then pm[ins[0]].partner else None
  }

  function Fed(pm: PortMap, outs: seq<PortId>): Option<PortId> {
    if |outs| > 0 && outs[0] in pm then pm[outs[0]].partner else None
  }

  /** What the first three calls of `detachElement` do: both ends are unconnected, the
      former partners are linked when both exist outside the element, and no other port
      changes. */
  lemma DetachEndsLinks(pm: PortMap, ins: seq<PortId>, outs: seq<PortId>)
    requires Arrays(pm, ins, outs)
    ensures var b := DetachEnds(pm, ins, outs);
      && b[ins[0]].partner.None?
      && (|outs| > 0 ==> b[outs[0]].partner.None?)
      && (Feeder(pm, ins).Some? && (|outs| > 0 ==> Feeder(pm, ins) != Some(outs[0])) ==>
            b[Feeder(pm, ins).value].partner == Fed(pm, outs))
      && (Fed(pm, outs).Some? && Feeder(pm, ins) != Some(outs[0]) ==>
            b[Fed(pm, outs).value].partner == Feeder(pm, ins))
      && forall q | q in pm && q != ins[0] && (|outs| > 0 ==> q != outs[0])
                    && Some(q) != Feeder(pm, ins) && Some(q) != Fed(pm, outs) :: b[q] == pm[q]
  {
    var d1 := Disconnect(pm, ins[0]);
    var d2 := if |outs| > 0 then Disconnect(d1.ports, outs[0]) else Edit(d1.ports, None);
    if |outs| > 0 {
      if Feeder(pm, ins) != Some(outs[0]) {
        assert d1.ports[outs[0]] == pm[outs[0]];
      }
    }
    assert d2.ports[ins[0]].partner.None?;
    if d1.previous.Some? && d2.previous.Some? {
      assert d1.previous.value != outs[0];
      assert d2.ports[d1.previous.value].partner.None?;
    }
  }

  /** After `detachElement` every port of the element is unconnected. */
  lemma DetachPortsLoose(pm: PortMap, ins: seq<PortId>, outs: seq<PortId>)
    requires Arrays(pm, ins, outs)
    ensures Loose(DetachPorts(pm, ins, outs), ins) && Loose(DetachPorts(pm, ins, outs), outs)
  {
    DetachEndsLinks(pm, ins, outs);
    var r := DetachPorts(pm, ins, outs);
    forall i | 0 <= i < |ins| ensures r[ins[i]].partner.None? {
      if i > 0 {
        assert ins[i] in Others(ins, outs);
      }
    }
    forall i | 0 <= i < |outs| ensures r[outs[i]].partner.None? {
      if i > 0 {
        assert outs[i] in Others(ins, outs);
      }
    }
  }

  /** After `detachElement`, what fed input 0 is linked to what output 0 fed, when both
      exist outside the element, and is otherwise left unconnected. */
  lemma DetachPortsBridge(pm: PortMap, ins: seq<PortId>, outs: seq<PortId>)
    requires Arrays(pm, ins, outs)
    requires Feeder(pm, ins).Some? ==> Feeder(pm, ins).value !in outs
    requires Fed(pm, outs).Some? ==> Fed(pm, outs).value !in ins
    ensures var r := DetachPorts(pm, ins, outs);
      && (Feeder(pm, ins).Some? ==> r[Feeder(pm, ins).value].partner == Fed(pm, outs))
      && (Fed(pm, outs).Some? ==> r[Fed(pm, outs).value].partner == Feeder(pm, ins))
  {
    DetachEndsLinks(pm, ins, outs);
    if Feeder(pm, ins).Some? {
      assert Feeder(pm, ins).value !in Others(ins, outs);
    }
    if Fed(pm, outs).Some? {
      assert Fed(pm, outs).value !in Others(ins, outs);
    }
  }

  /** `detachElement` changes no port outside the element other than the two it bridges,
      except that links into the element are cut. */
  lemma DetachPortsFrame(pm: PortMap, ins: seq<PortId>, outs: seq<PortId>)
    requires Arrays(pm, ins, outs)
    ensures var r := DetachPorts(pm, ins, outs);
      forall q | q in pm && q !in ins && q !in outs && Some(q) != Feeder(pm, ins) && Some(q) != Fed(pm, outs) ::
        r[q] == pm[q].(partner := Unlinked(pm[q].partner, ins + outs))
  {
    DetachEndsLinks(pm, ins, outs);
    OthersIn(pm, ins, outs);
    var b := DetachEnds(pm, ins, outs);
    var others := Others(ins, outs);
    forall q | q in pm && q !in ins && q !in outs && Some(q) != Feeder(pm, ins) && Some(q) != Fed(pm, outs)
      ensures DetachPorts(pm, ins, outs)[q] == pm[q].(partner := Unlinked(pm[q].partner, ins + outs))
    {
      assert b[q] == pm[q];
      assert q !in others;
      UnlinkedOthers(pm[q].partner, ins, outs);
    }
  }

  /** Away from input 0 and output 0, cutting the links into `Others` is cutting the links
      into the whole element. */
  lemma UnlinkedOthers(x: Option<PortId>, ins: seq<PortId>, outs: seq<PortId>)
    requires |ins| > 0 && x != Some(ins[0]) && (|outs| > 0 ==> x != Some(outs[0]))
    ensures Unlinked(x, Others(ins, outs)) == Unlinked(x, ins + outs)
  {
    if x.Some? && x.value in ins + outs {
      assert x.value in ins || x.value in outs;
    }
  }

  /** Detaching an element that was spliced in after `after` restores the arena, provided
      what `after` fed was handed on to output 0. */
  lemma DetachUndoesSpliceAfter(pm: PortMap, ins: seq<PortId>, outs: seq<PortId>, after: PortId)
    requires Arrays(pm, ins, outs) && Loose(pm, ins) && Loose(pm, outs)
    requires after in pm && pm[after].kind == Out && after !in outs
    requires |outs| > 0 || pm[after].partner.None?
    ensures DetachPorts(SpliceAfterPorts(pm, ins, outs, after), ins, outs) == pm
  {
    var s := SpliceAfterPorts(pm, ins, outs, after);
    SpliceAfterLinks(pm, ins, outs, after);
    assert after !in ins;
    DetachRestores(pm, s, ins, outs, after);
  }

  /** Detaching an element that was spliced in before `before` restores the arena. */
  lemma DetachUndoesSpliceBefore(pm: PortMap, ins: seq<PortId>, outs: seq<PortId>, before: PortId)
    requires Arrays(pm, ins, outs) && Loose(pm, ins) && Loose(pm, outs)
    requires before in pm && pm[before].IsInput() && before !in ins
    ensures DetachPorts(SpliceBeforePorts(pm, ins, outs, before), ins, outs) == pm
  {
    if |outs| == 0 {
      SpliceBeforeLinks(pm, ins, outs, before);
      DetachLoose(pm, ins, outs);
    } else {
      UnspliceBefore(pm, ins, outs, before);
    }
  }

  /** `DetachUndoesSpliceBefore` for an element with an output. */
  lemma UnspliceBefore(pm: PortMap, ins: seq<PortId>, outs: seq<PortId>, before: PortId)
    requires Arrays(pm, ins, outs) && Loose(pm, ins) && Loose(pm, outs) && |outs| > 0
    requires before in pm && pm[before].IsInput() && before !in ins
    ensures DetachPorts(SpliceBeforePorts(pm, ins, outs, before), ins, outs) == pm
  {
    SpliceBeforeLinks(pm, ins, outs, before);
    assert before !in outs;
    DetachRestores(pm, SpliceBeforePorts(pm, ins, outs, before), ins, outs, before);
  }

  /** Detaching an element none of whose ports is connected changes nothing. */
  lemma DetachLoose(pm: PortMap, ins: seq<PortId>, outs: seq<PortId>)
    requires Arrays(pm, ins, outs) && Loose(pm, ins) && Loose(pm, outs)
    ensures DetachPorts(pm, ins, outs) == pm
  {
    var r := DetachPorts(pm, ins, outs);
    assert Feeder(pm, ins).None? && Fed(pm, outs).None?;
    DetachPortsLoose(pm, ins, outs);
    DetachPortsFrame(pm, ins, outs);
    forall q | q in pm ensures r[q] == pm[q] {
      if q in ins {
        var i :| 0 <= i < |ins| && ins[i] == q;
        assert r[ins[i]].partner.None? && pm[ins[i]].partner.None?;
      } else if q in outs {
        var i :| 0 <= i < |outs| && outs[i] == q;
        assert r[outs[i]].partner.None? && pm[outs[i]].partner.None?;
      } else {
        LooseUnlinked(pm, ins, outs, q);
      }
    }
  }

  /** Detaching from an arena `s` in which a loose element was spliced between `a` and its
      former partner restores the arena as it was before the splice. */
  lemma DetachRestores(pm: PortMap, s: PortMap, ins: seq<PortId>, outs: seq<PortId>, a: PortId)
    requires Arrays(s, ins, outs) && Symmetric(pm) && Loose(pm, ins) && Loose(pm, outs)
    requires a in pm && a !in ins && a !in outs && SameShape(pm, s)
    requires forall q | q in pm && q !in ins && q !in outs && q != a && Some(q) != pm[a].partner :: s[q] == pm[q]
    requires || (Feeder(s, ins) == Some(a) && Fed(s, outs) == pm[a].partner)
             || (Feeder(s, ins) == pm[a].partner && Fed(s, outs) == Some(a))
    ensures DetachPorts(s, ins, outs) == pm
  {
    if pm[a].partner.Some? {
      assert pm[a].partner.value !in ins && pm[a].partner.value !in outs;
    }
    DetachPortsBridge(s, ins, outs);
    DetachPortsLoose(s, ins, outs);
    DetachPortsFrame(s, ins, outs);
    Restored(pm, s, DetachPorts(s, ins, outs), ins, outs, a);
  }

  /** The pointwise argument of both round trips: the element's ports are loose again, the
      port `a` outside it and its former partner are linked again, and every other port
      is back as it was. */
  lemma Restored(pm: PortMap, s: PortMap, r: PortMap, ins: seq<PortId>, outs: seq<PortId>, a: PortId)
    requires Symmetric(pm) && Loose(pm, ins) && Loose(pm, outs)
    requires a in pm && a !in ins && a !in outs
    requires SameShape(pm, s) && SameShape(s, r)
    requires forall q | q in pm && q !in ins && q !in outs && q != a && Some(q) != pm[a].partner :: s[q] == pm[q]
    requires Loose(r, ins) && Loose(r, outs)
    requires r[a].partner == pm[a].partner
    requires pm[a].partner.Some? ==> r[pm[a].partner.value].partner == Some(a)
    requires forall q | q in s && q !in ins && q !in outs && q != a && Some(q) != pm[a].partner ::
               r[q] == s[q].(partner := Unlinked(s[q].partner, ins + outs))
    ensures r == pm
  {
    forall q | q in pm ensures r[q] == pm[q] {
      if q in ins {
        var i :| 0 <= i < |ins| && ins[i] == q;
        assert r[ins[i]].partner.None? && pm[ins[i]].partner.None?;
      } else if q in outs {
        var i :| 0 <= i < |outs| && outs[i] == q;
        assert r[outs[i]].partner.None? && pm[outs[i]].partner.None?;
      } else if q != a && Some(q) != pm[a].partner {
        LooseUnlinked(pm, ins, outs, q);
      }
    }
  }

  /** A port outside a loose element has no link into it. */
  lemma LooseUnlinked(pm: PortMap, ins: seq<PortId>, outs: seq<PortId>, q: PortId)
    requires Symmetric(pm) && Loose(pm, ins) && Loose(pm, outs) && q in pm
    ensures Unlinked(pm[q].partner, ins + outs) == pm[q].partner
  {
    if pm[q].partner.Some? {
      var z := pm[q].partner.value;
      assert z !in ins && z !in outs;
      assert z !in ins + outs;
    }
  }
}

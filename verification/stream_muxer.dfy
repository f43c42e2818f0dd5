/**
  The stream grouping of the `StreamMuxer` plugin. The input channels are split into
  runs that share a source (`sourceNodeID`, `subProcessorIdx`); runs with the same sample
  rate and length are bucketed into one `StreamGroup` that records each run's first
  channel. The user selects a group and a stream within it; an update from upstream
  regroups and re-validates that selection, an update caused by the selection does not.
 */
module StreamMuxer {
  import opened Wrappers

  newtype uint16 = x: int | 0 <= x < 0x1_0000

  /** A sample rate. The source only compares rates for equality and tests them for NaN;
      `Unset` is the NaN of a default-constructed group and equals no rate, itself
      included. */
  datatype Rate = Unset | Rate(hz: int)

  /** What the grouping reads of a `DataChannel`. */
  datatype Channel = Channel(sourceNodeId: uint16, subProcessorIdx: uint16, sampleRate: Rate)

  /** The source a channel comes from. */
  datatype Source = Source(node: uint16, sub: uint16)

  function SourceOf(c: Channel): Source {
    Source(c.sourceNodeId, c.subProcessorIdx)
  }

  /** The loop's initial `curProc` / `curSub`. */
  const NoSource := Source(0, 0)

  /** `StreamGroup`: a sample rate, a channel count, and the first channel of every stream
      in the group. */
  datatype StreamGroup = StreamGroup(sampleRate: Rate, numChannels: nat, startOffsets: seq<int>)

  /** `StreamGroup()`: NaN rate, no channels. */
  const DefaultGroup := StreamGroup(Unset, 0, [])

  /** `StreamGroup::operator==`: same channel count and the same rate, which must not be
      NaN. The offsets take no part. */
  predicate SameGroup(a: StreamGroup, b: StreamGroup): (r: bool)
    ensures r ==> a.sampleRate.Rate? && b.sampleRate.Rate?
    ensures a.sampleRate.Unset? ==> !r
  {
    a.numChannels == b.numChannels && a.sampleRate == b.sampleRate && !a.sampleRate.Unset?
  }

  /** `==` on groups is symmetric and transitive, and reflexive exactly on groups with a
      rate; the default group equals nothing. */
  lemma SameGroupLaws(a: StreamGroup, b: StreamGroup, c: StreamGroup)
    ensures SameGroup(a, b) ==> SameGroup(b, a)
    ensures SameGroup(a, b) && SameGroup(b, c) ==> SameGroup(a, c)
    ensures SameGroup(a, a) <==> a.sampleRate.Rate?
    ensures !SameGroup(DefaultGroup, a) && !SameGroup(a, DefaultGroup)
    ensures SameGroup(a, b) <==> SameGroup(a.(startOffsets := []), b)
  {
  }

  /** No two groups of the list are equal under `==`. */
  ghost predicate Distinct(groups: seq<StreamGroup>) {
    forall i, j | 0 <= i < j < |groups| :: !SameGroup(groups[i], groups[j])
  }

  /** The search loop of `insertGroup`: the first group equal to `w`, if any. */
  function FindSame(groups: seq<StreamGroup>, w: StreamGroup): (r: Option<nat>)
    ensures r.Some? ==> r.value < |groups| && SameGroup(groups[r.value], w)
    ensures forall k | 0 <= k < |groups| && (r.None? || k < r.value) :: !SameGroup(groups[k], w)
  {
    if groups == [] then None
    else if SameGroup(groups[0], w) then Some(0)
    else
      match FindSame(groups[1..], w)
      case None => None
      case Some(k) => Some(k + 1)
  }

  /** `insertGroup(workingGroup, startOffset)`: the offset joins the first equal group;
      failing that, a group with an offset above -1 is appended with that offset;
      otherwise nothing changes. */
  function InsertGroup(groups: seq<StreamGroup>, w: StreamGroup, startOffset: int): (r: seq<StreamGroup>)
    ensures |groups| <= |r| <= |groups| + 1
    ensures forall k | 0 <= k < |groups| ::
              r[k].sampleRate == groups[k].sampleRate && r[k].numChannels == groups[k].numChannels
    ensures |r| == |groups| + 1 ==>
              startOffset > -1 && r[|groups|] == w.(startOffsets := w.startOffsets + [startOffset])
  {
    match FindSame(groups, w)
    case Some(i) => groups[i := groups[i].(startOffsets := groups[i].startOffsets + [startOffset])]
    case None =>
      if startOffset > -1 then groups + [w.(startOffsets := w.startOffsets + [startOffset])] else groups
  }

  /** The three outcomes of `insertGroup`, and `==` never holds between two groups of the
      result when it held between none before. */
  lemma InsertGroupCases(groups: seq<StreamGroup>, w: StreamGroup, startOffset: int)
    ensures var r := InsertGroup(groups, w, startOffset);
      && ((exists k | 0 <= k < |groups| :: SameGroup(groups[k], w)) ==>
            && |r| == |groups|
            && var i := FindSame(groups, w).value;
            && SameGroup(groups[i], w) && (forall k | 0 <= k < i :: !SameGroup(groups[k], w))
            && r[i] == groups[i].(startOffsets := groups[i].startOffsets + [startOffset])
            && forall k | 0 <= k < |groups| && k != i :: r[k] == groups[k])
      && ((forall k | 0 <= k < |groups| :: !SameGroup(groups[k], w)) && startOffset > -1 ==>
            && r[..|groups|] == groups && |r| == |groups| + 1
            && r[|groups|] == w.(startOffsets := w.startOffsets + [startOffset]))
      && ((forall k | 0 <= k < |groups| :: !SameGroup(groups[k], w)) && startOffset <= -1 ==> r == groups)
      && (Distinct(groups) ==> Distinct(r))
  {
    var r := InsertGroup(groups, w, startOffset);
    if FindSame(groups, w).None? && startOffset > -1 {
      assert r[..|groups|] == groups;
    }
  }

  /** A maximal stretch of channels from one source: first channel, length, and the rate
      of the first channel. */
  datatype Run = Run(start: nat, length: nat, rate: Rate)

  /** Channel `i` starts a run: its source differs from the previous channel's, or, for
      the first channel, from `NoSource`. */
  predicate IsStart(chs: seq<Channel>, i: nat)
    requires i < |chs|
  {
    SourceOf(chs[i]) != if i == 0 then NoSource else SourceOf(chs[i - 1])
  }

  /** The runs of `chs`, in order: a reference definition of what the loop of
      `updateSettings` splits the channels into. */
  function Runs(chs: seq<Channel>): (rs: seq<Run>)
    decreases |chs|
  {
    if chs == [] then []
    else
      var prev := Runs(chs[..|chs| - 1]);
      var i := |chs| - 1;
      if IsStart(chs, i) then prev + [Run(i, 1, chs[i].sampleRate)]
      else if prev == [] then []
      else prev[..|prev| - 1] + [prev[|prev| - 1].(length := prev[|prev| - 1].length + 1)]
  }

  /** How `Runs` grows by one channel: a new run when the channel starts one, the last run
      one longer otherwise, and nothing while no run has begun. */
  lemma RunsStep(chs: seq<Channel>)
    requires chs != []
    ensures var prev := Runs(chs[..|chs| - 1]);
      var rs := Runs(chs);
      var i := |chs| - 1;
      && (IsStart(chs, i) ==>
            && |rs| == |prev| + 1 && rs[|prev|] == Run(i, 1, chs[i].sampleRate)
            && forall j | 0 <= j < |prev| :: rs[j] == prev[j])
      && (!IsStart(chs, i) && prev == [] ==> rs == [])
      && (!IsStart(chs, i) && prev != [] ==>
            && |rs| == |prev|
            && rs[|prev| - 1] == prev[|prev| - 1].(length := prev[|prev| - 1].length + 1)
            && forall j | 0 <= j < |prev| - 1 :: rs[j] == prev[j])
  {
  }

  /** Dropping the last channel does not change whether an earlier channel starts a run. */
  lemma StartsOfPrefix(chs: seq<Channel>)
    requires chs != []
    ensures forall k | 0 <= k < |chs| - 1 :: chs[k] == chs[..|chs| - 1][k]
    ensures forall k | 0 <= k < |chs| - 1 :: IsStart(chs, k) == IsStart(chs[..|chs| - 1], k)
  {
  }

  /** Every run is non-empty, lies within the channels, begins where the source changes,
      and takes the rate of its first channel. */
  lemma {:induction false} RunsBounded(chs: seq<Channel>)
    ensures var rs := Runs(chs);
      forall j | 0 <= j < |rs| ::
        && rs[j].length >= 1 && rs[j].start + rs[j].length <= |chs|
        && IsStart(chs, rs[j].start) && rs[j].rate == chs[rs[j].start].sampleRate
    decreases |chs|
  {
    if chs != [] {
      var pre := chs[..|chs| - 1];
      RunsBounded(pre);
      RunsStep(chs);
      StartsOfPrefix(chs);
      var prev := Runs(pre);
      var rs := Runs(chs);
      forall j | 0 <= j < |rs|
        ensures rs[j].length >= 1 && rs[j].start + rs[j].length <= |chs|
        ensures IsStart(chs, rs[j].start) && rs[j].rate == chs[rs[j].start].sampleRate
      {
        if j < |prev| {
          assert prev[j].start + prev[j].length <= |pre|;
        }
      }
    }
  }

  /** Runs follow one another without a gap, and the last one ends at the last channel. */
  lemma {:induction false} RunsContiguous(chs: seq<Channel>)
    ensures var rs := Runs(chs);
      && (forall j | 0 <= j < |rs| - 1 :: rs[j + 1].start == rs[j].start + rs[j].length)
      && (rs != [] ==> rs[|rs| - 1].start + rs[|rs| - 1].length == |chs|)
    decreases |chs|
  {
    if chs != [] {
      var pre := chs[..|chs| - 1];
      RunsContiguous(pre);
      RunsStep(chs);
      var prev := Runs(pre);
      var rs := Runs(chs);
      forall j | 0 <= j < |rs| - 1 ensures rs[j + 1].start == rs[j].start + rs[j].length {
        assert rs[j] == prev[j];
        if j + 1 < |prev| {
          assert rs[j + 1].start == prev[j + 1].start;
        }
      }
    }
  }

  /** No channel inside a run starts one, and the channels before the first run come
      from `NoSource`: the runs are maximal, and leading `NoSource` channels form none. */
  lemma {:induction false} RunsMaximal(chs: seq<Channel>)
    ensures var rs := Runs(chs);
      forall j, k | 0 <= j < |rs| && rs[j].start < k < rs[j].start + rs[j].length && k < |chs| ::
        !IsStart(chs, k)
    decreases |chs|
  {
    if chs != [] {
      var pre := chs[..|chs| - 1];
      RunsMaximal(pre);
      RunsBounded(pre);
      RunsContiguous(pre);
      RunsStep(chs);
      StartsOfPrefix(chs);
      MaximalStep(chs, Runs(pre), Runs(chs));
    }
  }

  /** The step of `RunsMaximal`, with the runs before and after the last channel given. */
  lemma MaximalStep(chs: seq<Channel>, prev: seq<Run>, rs: seq<Run>)
    requires chs != []
    requires var i := |chs| - 1;
      && (forall k | 0 <= k < i :: IsStart(chs, k) == IsStart(chs[..i], k))
      && (forall j | 0 <= j < |prev| :: prev[j].start + prev[j].length <= i)
      && (prev != [] ==> prev[|prev| - 1].start + prev[|prev| - 1].length == i)
      && (forall j, k | 0 <= j < |prev| && prev[j].start < k < prev[j].start + prev[j].length && k < i ::
            !IsStart(chs[..i], k))
      && (IsStart(chs, i) ==>
            && |rs| == |prev| + 1 && rs[|prev|] == Run(i, 1, chs[i].sampleRate)
            && forall j | 0 <= j < |prev| :: rs[j] == prev[j])
      && (!IsStart(chs, i) && prev == [] ==> rs == [])
      && (!IsStart(chs, i) && prev != [] ==>
            && |rs| == |prev|
            && rs[|prev| - 1] == prev[|prev| - 1].(length := prev[|prev| - 1].length + 1)
            && forall j | 0 <= j < |prev| - 1 :: rs[j] == prev[j])
    ensures forall j, k | 0 <= j < |rs| && rs[j].start < k < rs[j].start + rs[j].length && k < |chs| ::
              !IsStart(chs, k)
  {
    var i := |chs| - 1;
    forall j, k | 0 <= j < |rs| && rs[j].start < k < rs[j].start + rs[j].length && k < |chs|
      ensures !IsStart(chs, k)
    {
      if k < i {
        assert j < |prev|;
        assert rs[j].start == prev[j].start && rs[j].length <= prev[j].length + 1;
        assert !IsStart(chs[..i], k);
      }
    }
  }

  lemma {:induction false} RunsLeading(chs: seq<Channel>)
    ensures var rs := Runs(chs);
      forall k | 0 <= k < |chs| && (rs == [] || k < rs[0].start) :: SourceOf(chs[k]) == NoSource
    decreases |chs|
  {
    if chs != [] {
      var pre := chs[..|chs| - 1];
      RunsLeading(pre);
      RunsBounded(pre);
      RunsStep(chs);
      StartsOfPrefix(chs);
      var prev := Runs(pre);
      var i := |chs| - 1;
      if !IsStart(chs, i) && prev == [] {
        assert i > 0 ==> SourceOf(pre[i - 1]) == NoSource;
      }
    }
  }

  /** The runs partition the channels after the leading `NoSource` ones. */
  lemma RunsShape(chs: seq<Channel>)
    ensures var rs := Runs(chs);
      && (forall j | 0 <= j < |rs| ::
            && rs[j].length >= 1 && rs[j].start + rs[j].length <= |chs|
            && IsStart(chs, rs[j].start) && rs[j].rate == chs[rs[j].start].sampleRate)
      && (forall j, k | 0 <= j < |rs| && rs[j].start < k < rs[j].start + rs[j].length :: !IsStart(chs, k))
      && (forall j | 0 <= j < |rs| - 1 :: rs[j + 1].start == rs[j].start + rs[j].length)
      && (rs != [] ==> rs[|rs| - 1].start + rs[|rs| - 1].length == |chs|)
      && (forall k | 0 <= k < |chs| && (rs == [] || k < rs[0].start) :: SourceOf(chs[k]) == NoSource)
  {
    RunsBounded(chs);
    RunsContiguous(chs);
    RunsMaximal(chs);
    RunsLeading(chs);
  }

  /** Run starts strictly increase. */
  lemma RunsIncrease(chs: seq<Channel>)
    ensures forall j, k | 0 <= j < k < |Runs(chs)| :: Runs(chs)[j].start < Runs(chs)[k].start
  {
    var rs := Runs(chs);
    RunsShape(chs);
    forall j, k | 0 <= j < k < |rs| ensures rs[j].start < rs[k].start {
      RunsChain(rs, j, k);
    }
  }

  lemma {:induction false} RunsChain(rs: seq<Run>, j: nat, k: nat)
    requires j < k < |rs|
    requires forall i | 0 <= i < |rs| :: rs[i].length >= 1
    requires forall i | 0 <= i < |rs| - 1 :: rs[i + 1].start == rs[i].start + rs[i].length
    ensures rs[j].start < rs[k].start
    decreases k - j
  {
    if k > j + 1 {
      RunsChain(rs, j, k - 1);
    }
  }

  /** The group a run is inserted as. */
  function RunGroup(r: Run): StreamGroup {
    StreamGroup(r.rate, r.length, [])
  }

  /** The runs inserted one after the other, as `insertGroup` does at every source change
      and once after the loop. */
  function Bucket(rs: seq<Run>): seq<StreamGroup>
    decreases |rs|
  {
    if rs == [] then []
    else
      var last := rs[|rs| - 1];
      InsertGroup(Bucket(rs[..|rs| - 1]), RunGroup(last), last.start)
  }

  /** Run starts strictly increase along the list. */
  ghost predicate Increasing(rs: seq<Run>) {
    forall j, k | 0 <= j < k < |rs| :: rs[j].start < rs[k].start
  }

  /** A group's offsets strictly increase. */
  ghost predicate Ascending(offsets: seq<int>) {
    forall a, b | 0 <= a < b < |offsets| :: offsets[a] < offsets[b]
  }

  /** Every group holds an offset, and every offset is the start of a run of `rs` whose
      length and rate are the group's. */
  ghost predicate Sound(b: seq<StreamGroup>, rs: seq<Run>) {
    && (forall g | 0 <= g < |b| :: |b[g].startOffsets| >= 1)
    && (forall g, i | 0 <= g < |b| && 0 <= i < |b[g].startOffsets| ::
          && b[g].startOffsets[i] >= 0
          && Run(b[g].startOffsets[i] as nat, b[g].numChannels, b[g].sampleRate) in rs)
  }

  /** Every run's start is recorded in some group. */
  ghost predicate Complete(b: seq<StreamGroup>, rs: seq<Run>) {
    forall j | 0 <= j < |rs| :: Recorded(b, rs[j].start)
  }

  /** Some group records offset `o`. */
  ghost predicate Recorded(b: seq<StreamGroup>, o: int) {
    exists g | 0 <= g < |b| :: o in b[g].startOffsets
  }

  /** Offsets increase within each group, and no offset is in two groups. */
  ghost predicate Ordered(b: seq<StreamGroup>) {
    && (forall g | 0 <= g < |b| :: Ascending(b[g].startOffsets))
    && (forall g1, g2, i1, i2 | 0 <= g1 < |b| && 0 <= g2 < |b| && g1 != g2
                             && 0 <= i1 < |b[g1].startOffsets| && 0 <= i2 < |b[g2].startOffsets| ::
          b[g1].startOffsets[i1] != b[g2].startOffsets[i2])
  }

  lemma SoundStep(prev: seq<StreamGroup>, pre: seq<Run>, last: Run)
    requires Sound(prev, pre)
    ensures Sound(InsertGroup(prev, RunGroup(last), last.start), pre + [last])
  {
    var w := RunGroup(last);
    var b := InsertGroup(prev, w, last.start);
    forall g | 0 <= g < |b| ensures |b[g].startOffsets| >= 1 {
      if g < |prev| {
        assert |b[g].startOffsets| >= |prev[g].startOffsets|;
      }
    }
    forall g, i | 0 <= g < |b| && 0 <= i < |b[g].startOffsets|
      ensures && b[g].startOffsets[i] >= 0
              && Run(b[g].startOffsets[i] as nat, b[g].numChannels, b[g].sampleRate) in pre + [last]
    {
      match FindSame(prev, w)
      case Some(n) =>
        if g == n && i == |prev[n].startOffsets| {
          assert Run(b[g].startOffsets[i] as nat, b[g].numChannels, b[g].sampleRate) == last;
        } else {
          assert b[g].startOffsets[i] == prev[g].startOffsets[i];
        }
      case None =>
        if g == |prev| {
          assert Run(b[g].startOffsets[i] as nat, b[g].numChannels, b[g].sampleRate) == last;
        } else {
          assert b[g] == prev[g];
        }
    }
  }

  lemma CompleteStep(prev: seq<StreamGroup>, pre: seq<Run>, last: Run)
    requires Complete(prev, pre)
    ensures Complete(InsertGroup(prev, RunGroup(last), last.start), pre + [last])
  {
    var w := RunGroup(last);
    var b := InsertGroup(prev, w, last.start);
    var rs := pre + [last];
    forall j | 0 <= j < |rs| ensures Recorded(b, rs[j].start) {
      match FindSame(prev, w)
      case Some(n) =>
        if j < |pre| {
          assert rs[j] == pre[j];
          var g :| 0 <= g < |prev| && pre[j].start in prev[g].startOffsets;
          assert rs[j].start in b[g].startOffsets;
        } else {
          assert rs[j].start in b[n].startOffsets;
        }
      case None =>
        if j < |pre| {
          assert rs[j] == pre[j];
          var g :| 0 <= g < |prev| && pre[j].start in prev[g].startOffsets;
          assert b[g] == prev[g];
        } else {
          assert rs[j].start in b[|prev|].startOffsets;
        }
    }
  }

  /** The step of `BucketOrdered`: a new offset above all others joins one group or forms
      a new one. */
  lemma OrderedStep(prev: seq<StreamGroup>, w: StreamGroup, o: int)
    requires Ordered(prev) && w.startOffsets == []
    requires forall g, i | 0 <= g < |prev| && 0 <= i < |prev[g].startOffsets| :: prev[g].startOffsets[i] < o
    ensures Ordered(InsertGroup(prev, w, o))
  {
    match FindSame(prev, w)
    case Some(n) =>
      OrderedJoin(prev, n, o);
    case None =>
      if o > -1 {
        OrderedAppend(prev, w.(startOffsets := w.startOffsets + [o]), o);
      }
  }

  lemma OrderedJoin(prev: seq<StreamGroup>, n: nat, o: int)
    requires n < |prev| && Ordered(prev)
    requires forall g, i | 0 <= g < |prev| && 0 <= i < |prev[g].startOffsets| :: prev[g].startOffsets[i] < o
    ensures Ordered(prev[n := prev[n].(startOffsets := prev[n].startOffsets + [o])])
  {
    var b := prev[n := prev[n].(startOffsets := prev[n].startOffsets + [o])];
    assert forall g, i | 0 <= g < |b| && 0 <= i < |b[g].startOffsets| ::
      b[g].startOffsets[i] == if g == n && i == |prev[n].startOffsets| then o else prev[g].startOffsets[i];
  }

  lemma OrderedAppend(prev: seq<StreamGroup>, v: StreamGroup, o: int)
    requires Ordered(prev) && v.startOffsets == [o]
    requires forall g, i | 0 <= g < |prev| && 0 <= i < |prev[g].startOffsets| :: prev[g].startOffsets[i] < o
    ensures Ordered(prev + [v])
  {
    var b := prev + [v];
    assert forall g | 0 <= g < |prev| :: b[g] == prev[g];
  }

  /** An offset recorded before the last run was inserted lies below its start. */
  lemma BelowLast(prev: seq<StreamGroup>, pre: seq<Run>, last: Run)
    requires Sound(prev, pre) && Increasing(pre + [last])
    ensures forall g, i | 0 <= g < |prev| && 0 <= i < |prev[g].startOffsets| :: prev[g].startOffsets[i] < last.start
  {
    var rs := pre + [last];
    forall g, i | 0 <= g < |prev| && 0 <= i < |prev[g].startOffsets| ensures prev[g].startOffsets[i] < last.start {
      var x := Run(prev[g].startOffsets[i] as nat, prev[g].numChannels, prev[g].sampleRate);
      var j :| 0 <= j < |pre| && pre[j] == x;
      assert rs[j] == x && rs[|rs| - 1] == last;
    }
  }

  /** Every offset recorded is the start of a run whose length and rate are the group's,
      and every group holds at least one offset. */
  lemma {:induction false} BucketSound(rs: seq<Run>)
    ensures Sound(Bucket(rs), rs)
    decreases |rs|
  {
    if rs != [] {
      var pre := rs[..|rs| - 1];
      BucketSound(pre);
      assert rs == pre + [rs[|rs| - 1]];
      SoundStep(Bucket(pre), pre, rs[|rs| - 1]);
    }
  }

  /** Every run's start is recorded in some group. */
  lemma {:induction false} BucketComplete(rs: seq<Run>)
    ensures Complete(Bucket(rs), rs)
    decreases |rs|
  {
    if rs != [] {
      var pre := rs[..|rs| - 1];
      BucketComplete(pre);
      assert rs == pre + [rs[|rs| - 1]];
      CompleteStep(Bucket(pre), pre, rs[|rs| - 1]);
    }
  }

  /** With increasing run starts, each group's offsets increase, and no offset is in two
      groups: each run is recorded exactly once. */
  lemma {:induction false} BucketOrdered(rs: seq<Run>)
    requires Increasing(rs)
    ensures Ordered(Bucket(rs))
    decreases |rs|
  {
    if rs != [] {
      var pre := rs[..|rs| - 1];
      var last := rs[|rs| - 1];
      assert Increasing(pre);
      BucketOrdered(pre);
      BucketSound(pre);
      assert rs == pre + [last];
      BelowLast(Bucket(pre), pre, last);
      OrderedStep(Bucket(pre), RunGroup(last), last.start);
    }
  }

  /** No two groups are equal under `==`. */
  lemma {:induction false} BucketDistinct(rs: seq<Run>)
    ensures Distinct(Bucket(rs))
    decreases |rs|
  {
    if rs != [] {
      var pre := rs[..|rs| - 1];
      BucketDistinct(pre);
      InsertGroupCases(Bucket(pre), RunGroup(rs[|rs| - 1]), rs[|rs| - 1].start);
    }
  }

  /** The groups an update from upstream computes from the input channels. */
  function Grouping(chs: seq<Channel>): seq<StreamGroup> {
    Bucket(Runs(chs))
  }

  /** Channels `o` to `o + n - 1` are a maximal stretch from one source, and `rate` is
      the first one's rate. */
  ghost predicate RunAt(chs: seq<Channel>, o: int, n: nat, rate: Rate) {
    && 0 <= o && n >= 1 && o + n <= |chs|
    && IsStart(chs, o) && chs[o].sampleRate == rate
    && (forall k | o < k < o + n :: !IsStart(chs, k))
    && (o + n == |chs| || IsStart(chs, o + n))
  }

  /** Every channel that starts a run is the start of one of `Runs`. */
  lemma {:induction false} StartsAreRuns(chs: seq<Channel>)
    ensures forall k | 0 <= k < |chs| && IsStart(chs, k) :: exists j | 0 <= j < |Runs(chs)| :: Runs(chs)[j].start == k
    decreases |chs|
  {
    if chs != [] {
      var pre := chs[..|chs| - 1];
      StartsAreRuns(pre);
      RunsStep(chs);
      StartsOfPrefix(chs);
      var prev := Runs(pre);
      var rs := Runs(chs);
      forall k | 0 <= k < |chs| && IsStart(chs, k) ensures exists j | 0 <= j < |rs| :: rs[j].start == k {
        if k < |chs| - 1 {
          var j :| 0 <= j < |prev| && prev[j].start == k;
          assert rs[j].start == k;
        } else {
          assert rs[|rs| - 1].start == k;
        }
      }
    }
  }

  /** A run of `Runs(chs)` is a maximal stretch of channels. */
  lemma RunIsRunAt(chs: seq<Channel>, j: nat)
    requires j < |Runs(chs)|
    ensures var r := Runs(chs)[j]; RunAt(chs, r.start, r.length, r.rate)
  {
    RunsShape(chs);
    var rs := Runs(chs);
    if j + 1 < |rs| {
      assert rs[j + 1].start == rs[j].start + rs[j].length;
    }
  }

  /** What the grouping loop computes: no two groups equal; each offset starts a maximal
      stretch of channels from one source whose length is the group's channel count and
      whose first rate is the group's rate, so an offset plus the count never passes the
      number of inputs; offsets increase within a group and no offset is in two groups;
      and every channel that starts a stretch is some group's offset. */
  lemma GroupingFacts(chs: seq<Channel>)
    ensures var gs := Grouping(chs);
      && Distinct(gs)
      && Ordered(gs)
      && (forall g | 0 <= g < |gs| :: |gs[g].startOffsets| >= 1)
      && (forall g, i | 0 <= g < |gs| && 0 <= i < |gs[g].startOffsets| ::
            RunAt(chs, gs[g].startOffsets[i], gs[g].numChannels, gs[g].sampleRate))
      && (forall k | 0 <= k < |chs| && IsStart(chs, k) :: Recorded(gs, k))
  {
    var rs := Runs(chs);
    var gs := Grouping(chs);
    BucketDistinct(rs);
    RunsIncrease(chs);
    BucketOrdered(rs);
    BucketSound(rs);
    BucketComplete(rs);
    StartsAreRuns(chs);
    forall g, i | 0 <= g < |gs| && 0 <= i < |gs[g].startOffsets|
      ensures RunAt(chs, gs[g].startOffsets[i], gs[g].numChannels, gs[g].sampleRate)
    {
      var x := Run(gs[g].startOffsets[i] as nat, gs[g].numChannels, gs[g].sampleRate);
      var j :| 0 <= j < |rs| && rs[j] == x;
      RunIsRunAt(chs, j);
    }
    forall k | 0 <= k < |chs| && IsStart(chs, k) ensures Recorded(gs, k) {
      var j :| 0 <= j < |rs| && rs[j].start == k;
    }
  }

  /** The loop of `updateSettings` that builds `streamGroups`, as written. */
  method GroupChannels(chs: seq<Channel>) returns (groups: seq<StreamGroup>)
    ensures groups == Grouping(chs)
  {
    groups := [];
    var cur := NoSource;
    var working := DefaultGroup;
    var startOffset := -1;
    var i := 0;
    while i < |chs|
      invariant 0 <= i <= |chs|
      invariant cur == if i == 0 then NoSource else SourceOf(chs[i - 1])
      invariant Runs(chs[..i]) == [] ==>
                  startOffset == -1 && working == DefaultGroup.(numChannels := i) && groups == []
      invariant Runs(chs[..i]) != [] ==>
                  var rs := Runs(chs[..i]);
                  var last := rs[|rs| - 1];
                  && startOffset == last.start && working == RunGroup(last)
                  && groups == Bucket(rs[..|rs| - 1])
    {
      var ch := chs[i];
      assert chs[..i + 1][..i] == chs[..i];
      if cur != SourceOf(ch) {
        cur := SourceOf(ch);
        groups := InsertGroup(groups, working, startOffset);
        working := StreamGroup(ch.sampleRate, 0, []);
        startOffset := i;
      }
      working := working.(numChannels := working.numChannels + 1);
      i := i + 1;
    }
    assert chs[..i] == chs;
    groups := InsertGroup(groups, working, startOffset);
  }

  /** The muxer's selection state: `streamGroups`, `m_selectedGroup`, `m_selectedStream`,
      `m_selectedGroupChanged`, the processor's `settings.numOutputs`, and the number of
      output data channels the last update built. */
  datatype Muxer = Muxer(
    groups: seq<StreamGroup>,
    selectedGroup: int,
    selectedStream: int,
    changed: bool,
    numOutputs: int,
    outputChannels: nat)

  /** A selected group and stream. */
  datatype Selection = Selection(group: int, stream: int)

  /** The constructor: no selection (-1, -1), flag clear, no groups yet. The processor's
      initial `numOutputs` is not the muxer's and is taken as given. */
  function NewMuxer(numOutputs: int): (m: Muxer)
    ensures m.selectedGroup == -1 && m.selectedStream == -1 && !m.changed
    ensures m.groups == [] && m.numOutputs == numOutputs && m.outputChannels == 0
  {
    Muxer([], -1, -1, false, numOutputs, 0)
  }

  /** Whether `g` indexes a group. */
  predicate InRange(groups: seq<StreamGroup>, g: int) {
    0 <= g < |groups|
  }

  /** `savedGroup`: the rate and channel count of the selected group before regrouping,
      or a default group, which equals nothing, when the selection is out of range. */
  function Saved(groups: seq<StreamGroup>, g: int): (r: StreamGroup)
    ensures r.startOffsets == []
    ensures InRange(groups, g) ==> r.sampleRate == groups[g].sampleRate && r.numChannels == groups[g].numChannels
    ensures !InRange(groups, g) ==> forall w :: !SameGroup(w, r)
  {
    if InRange(groups, g) then StreamGroup(groups[g].sampleRate, groups[g].numChannels, []) else DefaultGroup
  }

  /** The re-validation after regrouping: keep the group when its index is in range and
      the group there equals the saved one; then reset the stream to 0 only when it is
      positive and past the group's streams. Otherwise select group 0, stream 0. */
  function Revalidate(groups: seq<StreamGroup>, saved: StreamGroup, sel: Selection): (r: Selection)
    ensures InRange(groups, sel.group) && SameGroup(groups[sel.group], saved) ==>
              && r.group == sel.group
              && (r.stream == sel.stream <==> sel.stream <= 0 || sel.stream < |groups[sel.group].startOffsets|)
              && (r.stream != sel.stream ==> r.stream == 0)
    ensures !(InRange(groups, sel.group) && SameGroup(groups[sel.group], saved)) ==> r == Selection(0, 0)
  {
    if InRange(groups, sel.group) && SameGroup(groups[sel.group], saved) then
      if sel.stream > 0 && sel.stream >= |groups[sel.group].startOffsets| then Selection(sel.group, 0) else sel
    else Selection(0, 0)
  }

  /** The selection part of `updateSettings` on inputs `chs`. An update from upstream (flag
      clear) regroups and re-validates the selection; one caused by a group selection (flag
      set) keeps the groups and the selection. Then the outputs are rebuilt: with the
      selection in range, `numOutputs` and the output channel count become the group's
      channel count; otherwise there are no output channels and `numOutputs` stays. The
      flag is cleared in every case. */
  function UpdateSettings(m: Muxer, chs: seq<Channel>): (r: Muxer)
    ensures !r.changed
    ensures InRange(r.groups, r.selectedGroup) ==>
              r.numOutputs == r.outputChannels == r.groups[r.selectedGroup].numChannels
    ensures !InRange(r.groups, r.selectedGroup) ==> r.outputChannels == 0 && r.numOutputs == m.numOutputs
    ensures m.changed ==>
              r.groups == m.groups && r.selectedGroup == m.selectedGroup && r.selectedStream == m.selectedStream
    ensures !m.changed ==> r.groups == Grouping(chs)
  {
    var groups := if m.changed then m.groups else Grouping(chs);
    var sel :=
      if m.changed then Selection(m.selectedGroup, m.selectedStream)
      else Revalidate(groups, Saved(m.groups, m.selectedGroup), Selection(m.selectedGroup, m.selectedStream));
    if InRange(groups, sel.group) then
      var n := groups[sel.group].numChannels;
      Muxer(groups, sel.group, sel.stream, false, n, n)
    else
      Muxer(groups, sel.group, sel.stream, false, m.numOutputs, 0)
  }

  /** `setParameter`: index 0 selects a group and marks the change, index 1 selects a
      stream, any other index changes nothing. */
  function SetParameter(m: Muxer, index: int, value: int): (r: Muxer)
    ensures index == 0 ==> r == m.(selectedGroup := value, changed := true)
    ensures index == 1 ==> r == m.(selectedStream := value)
    ensures index != 0 && index != 1 ==> r == m
  {
    if index == 0 then m.(selectedGroup := value, changed := true)
    else if index == 1 then m.(selectedStream := value)
    else m
  }

  /** An upstream update keeps the selected group exactly when its index is still in range
      and the group there has the rate (not NaN) and channel count of the one selected
      before; otherwise group 0 and stream 0 are selected. A kept stream is reset to 0
      only when it is positive and past the group's streams. */
  lemma UpstreamSelection(m: Muxer, chs: seq<Channel>)
    requires !m.changed
    ensures var r := UpdateSettings(m, chs);
      var kept := && InRange(m.groups, m.selectedGroup) && InRange(r.groups, m.selectedGroup)
                  && r.groups[m.selectedGroup].sampleRate == m.groups[m.selectedGroup].sampleRate
                  && r.groups[m.selectedGroup].numChannels == m.groups[m.selectedGroup].numChannels
                  && r.groups[m.selectedGroup].sampleRate.Rate?;
      && (kept ==> r.selectedGroup == m.selectedGroup
                   && r.selectedStream == if 0 < m.selectedStream && |r.groups[m.selectedGroup].startOffsets| <= m.selectedStream then 0 else m.selectedStream)
      && (!kept ==> r.selectedGroup == 0 && r.selectedStream == 0)
  {
  }

  /** After an upstream update with at least one group the selection is in range, the
      selected stream is below the group's stream count, and every offset of the selected
      group leaves room for the group's channels among the inputs. */
  lemma UpstreamSelectionValid(m: Muxer, chs: seq<Channel>)
    requires !m.changed
    ensures var r := UpdateSettings(m, chs);
      r.groups != [] ==>
        && InRange(r.groups, r.selectedGroup)
        && r.selectedStream < |r.groups[r.selectedGroup].startOffsets|
        && r.numOutputs == r.outputChannels == r.groups[r.selectedGroup].numChannels >= 1
        && forall i | 0 <= i < |r.groups[r.selectedGroup].startOffsets| ::
             0 <= r.groups[r.selectedGroup].startOffsets[i]
             && r.groups[r.selectedGroup].startOffsets[i] + r.groups[r.selectedGroup].numChannels <= |chs|
  {
    var r := UpdateSettings(m, chs);
    GroupingFacts(chs);
    if r.groups != [] {
      var g := r.selectedGroup;
      assert RunAt(chs, r.groups[g].startOffsets[0], r.groups[g].numChannels, r.groups[g].sampleRate);
    }
  }

  /** A group selection followed by the update it triggers: the groups and the inputs'
      grouping are not recomputed, the chosen index is kept whatever it is, the stream
      is untouched, and the flag ends clear. */
  lemma SelectThenUpdate(m: Muxer, value: int, chs: seq<Channel>)
    ensures var r := UpdateSettings(SetParameter(m, 0, value), chs);
      && r.groups == m.groups && r.selectedGroup == value && r.selectedStream == m.selectedStream
      && !r.changed
      && (InRange(m.groups, value) ==> r.outputChannels == m.groups[value].numChannels)
      && (!InRange(m.groups, value) ==> r.outputChannels == 0)
  {
  }

  /** Selecting a stream does not mark a change, so the next update regroups. */
  lemma StreamThenUpdate(m: Muxer, value: int, chs: seq<Channel>)
    requires !m.changed
    ensures UpdateSettings(SetParameter(m, 1, value), chs).groups == Grouping(chs)
  {
  }

  /** The first update after construction selects group 0 and stream 0. */
  lemma FirstUpdate(numOutputs: int, chs: seq<Channel>)
    ensures var r := UpdateSettings(NewMuxer(numOutputs), chs);
      r.selectedGroup == 0 && r.selectedStream == 0 && r.groups == Grouping(chs)
  {
  }

  /** A second upstream update on the same inputs changes nothing. A NaN rate does not
      break this: re-validation only keeps a group that has a rate, and group 0 with
      stream 0 is a fixed point of it. */
  lemma UpdateIdempotent(m: Muxer, chs: seq<Channel>)
    requires !m.changed
    ensures UpdateSettings(UpdateSettings(m, chs), chs) == UpdateSettings(m, chs)
  {
    var r := UpdateSettings(m, chs);
    GroupingFacts(chs);
    if InRange(r.groups, r.selectedGroup) {
      var g := r.selectedGroup;
      assert RunAt(chs, r.groups[g].startOffsets[0], r.groups[g].numChannels, r.groups[g].sampleRate);
    }
  }

  // The source-id metadata of the selected group: one node id and one sub-processor index
  // per muxed stream, written to `idArray[2 * i]` and `idArray[2 * i + 1]`.

  /** The slots `updateSettings` allocates for `idArray`: two per channel of the group. */
  function IdSlotsAsWritten(g: StreamGroup): nat {
    2 * g.numChannels
  }

  /** The slots the writes need: two per stream of the group. */
  function IdSlots(g: StreamGroup): nat {
    2 * |g.startOffsets|
  }

  /** Every write for stream `i < |startOffsets|` lands inside `slots`. */
  predicate IdWritesFit(g: StreamGroup, slots: nat) {
    forall i | 0 <= i < |g.startOffsets| :: 2 * i + 1 < slots
  }

  /** As written, the writes fit exactly when the group has no more streams than channels. */
  lemma IdArrayAsWritten(g: StreamGroup)
    ensures IdWritesFit(g, IdSlotsAsWritten(g)) <==> |g.startOffsets| <= g.numChannels
  {
    if |g.startOffsets| > g.numChannels {
      var i := |g.startOffsets| - 1;
      assert !(2 * i + 1 < IdSlotsAsWritten(g));
    }
  }

  /** Two one-channel streams from different sources at the same rate form one group with
      two streams and one channel: as written the metadata writes overrun `idArray`. */
  lemma IdArrayOverflows()
    ensures var gs := Grouping([Channel(1, 0, Rate(1)), Channel(2, 0, Rate(1))]);
      && gs == [StreamGroup(Rate(1), 1, [0, 1])]
      && !IdWritesFit(gs[0], IdSlotsAsWritten(gs[0]))
  {
    var chs := [Channel(1, 0, Rate(1)), Channel(2, 0, Rate(1))];
    assert chs[..1] == [Channel(1, 0, Rate(1))];
    assert Runs(chs[..1]) == [Run(0, 1, Rate(1))];
    var rs := [Run(0, 1, Rate(1)), Run(1, 1, Rate(1))];
    assert Runs(chs) == rs;
    assert rs[..1] == [Run(0, 1, Rate(1))] && rs[..0] == [];
    assert Bucket(rs[..0]) == [];
    assert FindSame([], RunGroup(rs[0])) == None;
    assert Bucket(rs[..1]) == InsertGroup([], RunGroup(rs[0]), 0);
    assert RunGroup(rs[0]).startOffsets + [0] == [0];
    assert InsertGroup([], RunGroup(rs[0]), 0) == [] + [RunGroup(rs[0]).(startOffsets := [0])];
    assert Bucket(rs[..1]) == [StreamGroup(Rate(1), 1, [0])];
    assert FindSame([StreamGroup(Rate(1), 1, [0])], RunGroup(rs[1])) == Some(0);
    assert Bucket(rs) == InsertGroup(Bucket(rs[..1]), RunGroup(rs[1]), 1);
    assert [0] + [1] == [0, 1];
    assert Grouping(chs) == [StreamGroup(Rate(1), 1, [0, 1])];
    IdArrayAsWritten(StreamGroup(Rate(1), 1, [0, 1]));
  }

  /** Sized by streams, every write fits, and no smaller array holds them all. */
  lemma IdArrayFits(g: StreamGroup)
    ensures IdWritesFit(g, IdSlots(g))
    ensures |g.startOffsets| > 0 ==> !IdWritesFit(g, IdSlots(g) - 1)
  {
    if |g.startOffsets| > 0 {
      var i := |g.startOffsets| - 1;
      assert !(2 * i + 1 < IdSlots(g) - 1);
    }
  }
}

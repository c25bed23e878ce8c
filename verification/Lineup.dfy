/** Who is decoded before whom, over whole runs. */
module Lineup {
  import opened Types
  import opened Allocation
  import opened Backends
  import opened SchedulerModel
  import opened Placement
  import opened Batching
  import opened Worker
  import opened WorkerInvariants
  import opened Theorems
  import opened Recovery
  import opened Order
  import opened Eviction
  import opened Tables

  /** The order in which the requests that have been answered will be decoded next. */
  function Line(st: St): seq<nat> { Ids(st.decode) + Ids(st.swapOut) + Ids(st.deferredDecode) }

  /** y does not stand anywhere before x. */
  ghost predicate Ahead(ids: seq<nat>, x: nat, y: nat) {
    forall i, j :: 0 <= i < j < |ids| ==> !(ids[i] == y && ids[j] == x)
  }

  /** Not in front of the prefill any more. */
  predicate PastPrefill(st: St, x: nat) {
    x !in Ids(st.waiting) && x !in Ids(st.deferredPrefill) && x !in Ids(st.prefill)
  }

  ghost predicate Known(w: World, x: nat) {
    Arrived(w.arrived, x) && x !in Ids(w.inbox) && PastPrefill(w.st, x)
  }

  ghost predicate Lined(w: World, x: nat, y: nat) { Ahead(Line(w.st), x, y) && Known(w, x) && Known(w, y) }

  // ---- sequences ----

  lemma {:induction false} FlaggedAmong(ids: seq<nat>, out: seq<Resp>, last: bool)
    ensures forall x :: x in Flagged(ids, out, last) ==> x in ids
    decreases |ids|
  {
    if ids != [] && out != [] { FlaggedAmong(ids[1..], out[1..], last); }
  }

  lemma {:induction false} AheadFlagged(ids: seq<nat>, out: seq<Resp>, last: bool, x: nat, y: nat)
    requires Ahead(ids, x, y)
    ensures Ahead(Flagged(ids, out, last), x, y)
    decreases |ids|
  {
    if ids != [] && out != [] {
      assert forall i :: 0 <= i < |ids| - 1 ==> ids[1..][i] == ids[i + 1];
      assert Ahead(ids[1..], x, y);
      AheadFlagged(ids[1..], out[1..], last, x, y);
      FlaggedAmong(ids[1..], out[1..], last);
      FlaggedCons(ids, out, last);
      var rest := Flagged(ids[1..], out[1..], last);
      hide Flagged;
      if ids[0] == y {
        assert x !in ids[1..];
        assert x !in rest;
      }
    }
  }

  function Skip(i: nat, p: nat, n: nat): int { if i < p then i else i - n }

  lemma JoinedAt(p: seq<nat>, n: seq<nat>, q: seq<nat>, i: nat)
    requires i < |p + n + q|
    ensures (p + n + q)[i] in n || (0 <= Skip(i, |p|, |n|) < |p + q| && (p + q)[Skip(i, |p|, |n|)] == (p + n + q)[i])
    ensures !(|p| <= i < |p| + |n|) ==> 0 <= Skip(i, |p|, |n|) < |p + q| && (p + q)[Skip(i, |p|, |n|)] == (p + n + q)[i]
    ensures |p| <= i < |p| + |n| ==> (p + n + q)[i] in n
  {
    if |p| <= i < |p| + |n| { assert (p + n + q)[i] == n[i - |p|]; }
  }

  /** Others joining in anywhere make no difference to x and y. */
  lemma AheadInsert(p: seq<nat>, n: seq<nat>, q: seq<nat>, x: nat, y: nat)
    requires Ahead(p + q, x, y) && x !in n && y !in n
    ensures Ahead(p + n + q, x, y)
  {
    var s := p + n + q;
    forall i, j | 0 <= i < j < |s|
      ensures !(s[i] == y && s[j] == x)
    {
      JoinedAt(p, n, q, i);
      JoinedAt(p, n, q, j);
    }
  }

  lemma {:induction false} AllChosen(ids: seq<nat>, a: Alloc, k: nat)
    requires Granting(a)
    ensures Chosen(ids, a, k, true) == ids && Chosen(ids, a, k, false) == []
    decreases |ids|
  {
    NotRefused(a, k);
    hide Granting, Refused;
    if ids != [] { AllChosen(ids[1..], a, k + 1); }
  }

  lemma NotRefused(a: Alloc, k: nat)
    requires Granting(a)
    ensures !Refused(a, k)
  {}

  // ---- the halves ----

  lemma DecodeHalfLine(be: Backend, st: St, x: nat, y: nat)
    requires Granting(st.alloc) && Ahead(Line(st), x, y)
    ensures Ahead(Line(DecodeHalf(be, st).st), x, y)
  {
    hide Granting, Refused, Chosen, Flagged, DecodeHalf, Ids, Ahead;
    var p, a := DecodeHalf(be, st), st.alloc;
    DecodeHalfOrder(be, st);
    AllChosen(Ids(st.swapOut), a, 0);
    AllChosen(Line(st), a, |st.swapOut|);
    AheadFlagged(Line(st), p.out, false, x, y);
    assert Flagged(Line(st), p.out, false) + [] + [] == Flagged(Line(st), p.out, false);
  }

  lemma DecodeHalfPast(be: Backend, st: St, x: nat)
    requires PastPrefill(st, x)
    ensures PastPrefill(DecodeHalf(be, st).st, x)
  {
    hide DecodeHalf, Ids;
    Untouched(be, st);
  }

  lemma PrefillHalfPast(be: Backend, st: St, x: nat)
    requires Granting(st.alloc) && PastPrefill(st, x)
    ensures PastPrefill(PrefillHalf(be, st).st, x)
    ensures forall out, last :: x !in Flagged(Entrants(st), out, last)
  {
    hide Granting, Refused, Chosen, PrefillHalf, Backwards, Ids, Flagged;
    PrefillHalfOrder(be, st);
    var a, n, d := st.alloc, |st.swapOut|, |st.deferredPrefill|;
    AllChosen(Ids(st.deferredPrefill), a, n);
    var f := FirstRefusal(a, n + d, |st.waiting|);
    if f < |st.waiting| { NotRefused(a, n + d + f); }
    IdsPrefixOf(st.waiting, f);
    BackwardsAmong(Chosen(Ids(st.deferredPrefill), a, n, true));
    NoIds();
    forall out, last
      ensures x !in Flagged(Entrants(st), out, last)
    {
      FlaggedAmong(Entrants(st), out, last);
    }
  }

  /** Who will be prefilled. */
  function Entrants(st: St): seq<nat> {
    var f := FirstRefusal(st.alloc, |st.swapOut| + |st.deferredPrefill|, |st.waiting|);
    Backwards(Chosen(Ids(st.deferredPrefill), st.alloc, |st.swapOut|, true)) + Ids(st.prefill) + Ids(st.waiting[..f])
  }

  lemma IdsPrefixOf(q: seq<Req>, f: nat)
    requires f <= |q|
    ensures forall x :: x in Ids(q[..f]) ==> x in Ids(q)
  {
    forall x | x in Ids(q[..f])
      ensures x in Ids(q)
    {
      var i :| 0 <= i < f && Ids(q[..f])[i] == x;
      assert Ids(q)[i] == x;
    }
  }

  lemma BackwardsAmong(ids: seq<nat>)
    ensures forall x :: x in Backwards(ids) ==> x in ids
  {}

  lemma PrefillHalfLine(be: Backend, st: St, x: nat, y: nat)
    requires Granting(st.alloc) && Ahead(Line(st), x, y) && PastPrefill(st, x) && PastPrefill(st, y)
    ensures Ahead(Line(PrefillHalf(be, st).st), x, y)
  {
    hide Granting, Refused, Chosen, Flagged, PrefillHalf, Ids, Ahead, Backwards, FirstRefusal, PastPrefill;
    var p, a := PrefillHalf(be, st), st.alloc;
    PrefillHalfOrder(be, st);
    PrefillHalfPast(be, st, x);
    PrefillHalfPast(be, st, y);
    AllChosen(Ids(st.swapOut), a, 0);
    var joined := Flagged(Entrants(st), p.out, false);
    AheadInsert(Ids(st.decode) + Ids(st.swapOut), joined, Ids(st.deferredDecode), x, y);
    assert Line(p.st) == Ids(st.decode) + Ids(st.swapOut) + joined + Ids(st.deferredDecode) by {
      var l := Ids(st.decode) + Ids(st.swapOut) + joined;
      assert l + [] == l;
    }
  }

  /** The end of an iteration leaves the line as it is. */
  lemma SettleHalfLine(st: St, progress: bool)
    requires Granting(st.alloc) && Placed(st) && (!progress ==> st.decode == [])
    ensures Line(SettleHalf(st, progress).st) == Line(st)
    ensures var p := SettleHalf(st, progress).st;
            p.waiting == st.waiting && p.deferredPrefill == st.deferredPrefill && p.prefill == st.prefill
  {
    hide Granting, Refused, SettleHalf, St.Internal, Placed, Line;
    NotRefused(st.alloc, 0);
    if progress || st.Internal() == [] || st.swapOut != [] {
      assert st.swapOut != [] ==> 0 < |st.swapOut| && !Refused(st.alloc, 0);
      KeptLine(st, progress);
    } else {
      EvictedLine(st);
    }
  }

  lemma KeptLine(st: St, progress: bool)
    requires Granting(st.alloc)
    requires progress || st.Internal() == [] || exists k :: 0 <= k < |st.swapOut| && !Refused(st.alloc, k)
    ensures Line(SettleHalf(st, progress).st) == Line(st)
    ensures var p := SettleHalf(st, progress).st;
            p.waiting == st.waiting && p.deferredPrefill == st.deferredPrefill && p.prefill == st.prefill
  {
    hide Granting, Refused, Chosen, SettleHalf, St.Internal, Ids;
    SettleKeepsEverybody(st, progress);
    AllChosen(Ids(st.swapOut), st.alloc, 0);
    var l := Ids(st.decode) + Ids(st.swapOut);
    assert l + [] == l;
  }

  lemma EvictedLine(st: St)
    requires Granting(st.alloc) && Placed(st) && st.decode == [] && st.swapOut == [] && st.Internal() != []
    ensures Line(SettleHalf(st, false).st) == Line(st)
    ensures var p := SettleHalf(st, false).st;
            p.waiting == st.waiting && p.deferredPrefill == st.deferredPrefill && p.prefill == st.prefill
  {
    hide Granting, Refused, SettleHalf, St.Internal, Placed, Ids, Without;
    NotRefused(st.alloc, 0);
    OnGpu(st);
    SettleEvicts(st, 0, 0);
    LaterRefusals(st.alloc, st.alloc.(calls := st.alloc.calls + |st.swapOut|), 0, 0);
    NoIds();
    StillEmpty(st);
    var d := st.deferredDecode;
    if d != [] { FirstLeaves(d); }
  }

  lemma FirstLeaves(d: seq<Req>)
    requires d != []
    ensures [d[0].id] + Ids(Without(d, 0)) == Ids(d)
  {
    assert d == [d[0]] + d[1..] && Without(d, 0) == d[1..];
    ConsIds(d[0], d[1..]);
  }

  lemma StillEmpty(st: St)
    ensures st.deferredDecode == [] ==> Without(st.deferredDecode, 0) == []
    ensures st.decode == [] ==> Without(st.decode, 0) == []
  {}

  // ---- the steps ----

  lemma SameLined(w: World, v: World, x: nat, y: nat)
    requires Lined(w, x, y) && v.inbox == w.inbox && v.arrived == w.arrived
    requires Ahead(Line(v.st), x, y) && PastPrefill(v.st, x) && PastPrefill(v.st, y)
    ensures Lined(v, x, y)
  {
    hide Ahead, PastPrefill, Ids;
  }

  lemma PopLined(w: World, pc: Pc, x: nat, y: nat)
    requires Lined(w, x, y) && w.inbox != []
    ensures Lined(PopOne(w, pc), x, y)
  {
    hide Ahead, Ids;
    var q := w.inbox;
    assert q == [q[0]] + q[1..];
    ConsIds(q[0], q[1..]);
    IdsConcat(w.st.waiting, [q[0]]);
    OneId(q[0]);
  }

  lemma TurnLined(be: Backend, w: World, x: nat, y: nat)
    requires Queued(w) && Granting(w.st.alloc) && NobodyReady(w) && CanWork(w) && Lined(w, x, y)
    ensures Lined(Work(be, w), x, y)
  {
    hide Queued, Placed, Granting, DecodeHalf, PrefillHalf, SettleHalf, Work, Worker.Batch, Emit, PopOne, St.Idle;
    hide Ahead, PastPrefill, Ids;
    assert Placed(w.st) by { QueuedPlaced(w); }
    var v := Work(be, w);
    match w.pc {
      case Head => WorkHead(be, w); SameLined(w, v, x, y);
      case Draining(n) =>
        WorkDraining(be, w);
        if n < MAX_BATCH && w.inbox != [] { PopLined(w, Draining(n + 1), x, y); } else { SameLined(w, v, x, y); }
      case Decoding =>
        WorkDecoding(be, w);
        DecodeHalfLine(be, w.st, x, y);
        DecodeHalfPast(be, w.st, x);
        DecodeHalfPast(be, w.st, y);
        BatchFields(w, DecodeHalf(be, w.st), EmitDecode);
        SameLined(w, v, x, y);
      case Prefilling =>
        WorkPrefilling(be, w);
        PrefillHalfLine(be, w.st, x, y);
        PrefillHalfPast(be, w.st, x);
        PrefillHalfPast(be, w.st, y);
        BatchFields(w, PrefillHalf(be, w.st), EmitPrefill);
        SameLined(w, v, x, y);
      case Settling =>
        WorkSettling(be, w);
        SettleHalfLine(w.st, w.progress);
        assert PastPrefill(v.st, x) && PastPrefill(v.st, y) by { StillPast(w.st, v.st, x); StillPast(w.st, v.st, y); }
        SameLined(w, v, x, y);
      case Parked =>
        WorkParked(be, w);
        if w.inbox != [] { PopLined(w, Head, x, y); } else { StoppedLined(w, x, y); }
      case _ =>
        WorkEmitting(be, w);
        BatchFields(w, Phase(w.st, [], false), if w.pc.EmitDecode? then Pc.Prefilling else Settling);
        SameLined(w, v, x, y);
    }
  }

  lemma StillPast(st: St, v: St, x: nat)
    requires PastPrefill(st, x)
    requires v.waiting == st.waiting && v.deferredPrefill == st.deferredPrefill && v.prefill == st.prefill
    ensures PastPrefill(v, x)
  {}

  lemma StoppedLined(w: World, x: nat, y: nat)
    requires Lined(w, x, y)
    ensures Lined(w.(st := w.st.(running := false), pc := Head), x, y)
  {
    hide Ahead, Ids;
  }

  lemma StepLined(be: Backend, w: World, e: Event, x: nat, y: nat)
    requires Queued(w) && Granting(w.st.alloc) && NobodyReady(w) && Enabled(w, e) && Lined(w, x, y)
    ensures Lined(After(be, w, e), x, y)
  {
    if e.Turn? {
      hide *;
      EnabledTurn(w);
      AfterTurn(be, w);
      TurnLined(be, w, x, y);
    } else if e.Push? {
      hide Ahead, Ids, PastPrefill;
      PushKnown(w, e.req, x);
      PushKnown(w, e.req, y);
    } else {
      hide Ahead, Ids;
    }
  }

  lemma PushKnown(w: World, r: Req, x: nat)
    requires Known(w, x) && Fresh(w, r)
    ensures Arrived(w.arrived + [r], x) && x !in Ids(w.inbox + [r])
  {
    hide PastPrefill, Ids;
    var i :| 0 <= i < |w.arrived| && w.arrived[i].id == x;
    assert (w.arrived + [r])[i].id == x && r.id != x;
    IdsConcat(w.inbox, [r]);
    OneId(r);
  }

  lemma {:induction false} RunLined(be: Backend, w: World, events: seq<Event>, w': World, x: nat, y: nat)
    requires Sound(w) && Granting(w.st.alloc) && NobodyReady(w) && Lined(w, x, y) && Worker.Run(be, w, events, w')
    ensures Lined(w', x, y)
    decreases |events|
  {
    hide Queued, Conserved, Streams, Unshared, Granting, Lined, After, Enabled, NobodyReady;
    if events != [] {
      SoundStep(be, w, events[0]);
      StepGranted(be, w, events[0]);
      StepLined(be, w, events[0], x, y);
      StepNobodyReady(be, w, events[0]);
      RunLined(be, After(be, w, events[0]), events[1..], w', x, y);
    }
  }

  lemma StepNobodyReady(be: Backend, w: World, e: Event)
    requires NobodyReady(w) && Enabled(w, e)
    ensures NobodyReady(After(be, w, e))
  {
    hide Work, Fresh;
    if e.Turn? { ReadyTurn(be, w); }
  }

  // ---- the line among all the requests held ----

  function FrontSize(st: St): nat { |st.waiting| + |st.deferredPrefill| + |st.prefill| }

  /** Where in All() the i-th of the line stands. */
  function Slot(st: St, i: nat): int {
    if i < |st.decode| then FrontSize(st) + i
    else if i < |st.decode| + |st.swapOut| then FrontSize(st) + |st.deferredDecode| + i
    else FrontSize(st) + i - |st.swapOut|
  }

  lemma SlotIs(st: St, i: nat)
    requires i < |Line(st)|
    ensures FrontSize(st) <= Slot(st, i) < |st.All()| && st.All()[Slot(st, i)].id == Line(st)[i]
  {
    var front := st.waiting + st.deferredPrefill + st.prefill;
    var a, s, d := |st.decode|, |st.swapOut|, |st.deferredDecode|;
    assert st.All() == front + st.decode + st.deferredDecode + st.swapOut + st.finish;
    if i < a {
      assert Line(st)[i] == st.decode[i].id;
    } else if i < a + s {
      assert Line(st)[i] == st.swapOut[i - a].id;
    } else {
      assert Line(st)[i] == st.deferredDecode[i - a - s].id;
    }
  }

  lemma LineSize(st: St)
    ensures |Line(st)| == |st.decode| + |st.swapOut| + |st.deferredDecode|
  {}

  lemma SlotsDiffer(st: St, i: nat, j: nat)
    requires i < j < |Line(st)|
    ensures Slot(st, i) != Slot(st, j)
  {
    LineSize(st);
  }

  lemma FrontSlot(st: St, x: nat) returns (k: nat)
    requires !PastPrefill(st, x)
    ensures k < FrontSize(st) && k < |st.All()| && st.All()[k].id == x
  {
    var front := st.waiting + st.deferredPrefill + st.prefill;
    IdsConcat(st.waiting + st.deferredPrefill, st.prefill);
    IdsConcat(st.waiting, st.deferredPrefill);
    assert x in Ids(front);
    k :| 0 <= k < |front| && Ids(front)[k] == x;
    assert st.All() == front + (st.decode + st.deferredDecode + st.swapOut + st.finish);
  }

  lemma LineIsKnown(be: Backend, policy: Policy, w: World, i: nat)
    requires Reachable(be, policy, w) && i < |Line(w.st)|
    ensures Known(w, Line(w.st)[i])
  {
    hide Reachable, Line, St.All, PastPrefill;
    var x, k := Line(w.st)[i], Slot(w.st, i);
    SlotIs(w.st, i);
    OnlyOne(be, policy, w, k);
    if !PastPrefill(w.st, x) {
      var f := FrontSlot(w.st, x);
    }
  }

  lemma LineIsDistinct(be: Backend, policy: Policy, w: World, i: nat, j: nat)
    requires Reachable(be, policy, w) && i < j < |Line(w.st)|
    ensures Line(w.st)[i] != Line(w.st)[j]
  {
    hide Reachable, Line, St.All;
    SlotIs(w.st, i);
    SlotIs(w.st, j);
    SlotsDiffer(w.st, i, j);
    OnlyOne(be, policy, w, Slot(w.st, i));
  }

  /** Once the allocator refuses no more, two requests that have been answered are decoded in the order in which they
      stand: first the ready ones, then the swapped-out ones, then the deferred ones, each queue from its front.
      As long as neither is finished, and whatever joins them, it stays like that. */
  lemma DecodeOrderIsKept(be: Backend, policy: Policy, w: World, i: nat, j: nat, events: seq<Event>, w': World)
    requires Reachable(be, policy, w) && Granting(w.st.alloc) && Worker.Run(be, w, events, w')
    requires i < j < |Line(w.st)|
    ensures Ahead(Line(w'.st), Line(w.st)[i], Line(w.st)[j])
  {
    hide Reachable, Granting, Queued, Conserved, Streams, Unshared, NobodyReady, Line, Ahead, Known;
    var x, y := Line(w.st)[i], Line(w.st)[j];
    ReachableSound(be, policy, w);
    ReachableNobodyReady(be, policy, w);
    LineIsKnown(be, policy, w, i);
    LineIsKnown(be, policy, w, j);
    forall a, b | 0 <= a < b < |Line(w.st)|
      ensures Line(w.st)[a] != Line(w.st)[b]
    {
      LineIsDistinct(be, policy, w, a, b);
    }
    DistinctAhead(Line(w.st), i, j);
    RunLined(be, w, events, w', x, y);
  }

  lemma DistinctAhead(ids: seq<nat>, i: nat, j: nat)
    requires i < j < |ids| && forall a, b :: 0 <= a < b < |ids| ==> ids[a] != ids[b]
    ensures Ahead(ids, ids[i], ids[j])
  {}
}

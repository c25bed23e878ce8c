/** The callbacks and the worker loop, run without interruption, are runs of the interleaved machines. */
module Refinement {
  import opened Types
  import opened Backends
  import opened SchedulerModel
  import opened Text
  import opened Framing
  import opened Worker
  import opened ServerModel
  import opened SchedulerClass

  // ---- the scheduler thread ----

  function Turns(n: nat): (e: seq<Event>)
    ensures |e| == n && forall i :: 0 <= i < n ==> e[i] == Turn
  {
    seq(n, _ => Turn)
  }

  /** The scheduler thread alone gets from w to w'. */
  ghost predicate Reaches(be: Backend, w: World, w': World) {
    exists n: nat :: Worker.Run(be, w, Turns(n), w')
  }

  lemma {:induction false} RunConcat(be: Backend, w: World, e: seq<Event>, w': World, f: seq<Event>, w'': World)
    requires Worker.Run(be, w, e, w') && Worker.Run(be, w', f, w'')
    ensures Worker.Run(be, w, e + f, w'')
    decreases |e|
  {
    if e == [] {
      assert e + f == f;
    } else {
      RunConcat(be, After(be, w, e[0]), e[1..], w', f, w'');
      assert (e + f)[1..] == e[1..] + f;
    }
  }

  lemma Chain(be: Backend, w: World, w': World, w'': World)
    requires Reaches(be, w, w') && Reaches(be, w', w'')
    ensures Reaches(be, w, w'')
  {
    var n: nat :| Worker.Run(be, w, Turns(n), w');
    var m: nat :| Worker.Run(be, w', Turns(m), w'');
    RunConcat(be, w, Turns(n), w', Turns(m), w'');
    assert Turns(n) + Turns(m) == Turns(n + m);
  }

  lemma Step(be: Backend, w: World)
    requires CanWork(w)
    ensures Reaches(be, w, Work(be, w))
  {
    hide Work;
    assert Turns(1)[1..] == [];
    assert After(be, w, Turn) == Work(be, w);
    assert Worker.Run(be, Work(be, w), [], Work(be, w));
    assert Worker.Run(be, w, Turns(1), Work(be, w));
  }

  lemma {:induction false} Drains(be: Backend, w: World, k: nat)
    requires w.pc == Draining(k) && k <= MAX_BATCH
    ensures var n := if |w.inbox| < MAX_BATCH - k then |w.inbox| else MAX_BATCH - k;
            Reaches(be, w, w.(st := w.st.(waiting := w.st.waiting + w.inbox[..n]), inbox := w.inbox[n..],
                pc := Decoding))
    decreases MAX_BATCH - k
  {
    hide Reaches, Work;
    Step(be, w);
    WorkDraining(be, w);
    var n := if |w.inbox| < MAX_BATCH - k then |w.inbox| else MAX_BATCH - k;
    if n == 0 {
      assert w.st.waiting + w.inbox[..0] == w.st.waiting && w.inbox[0..] == w.inbox;
    } else {
      var v := PopOne(w, Draining(k + 1));
      Drains(be, v, k + 1);
      PopsMeet(w.st.waiting, w.inbox, n);
      Chain(be, w, v, w.(st := w.st.(waiting := w.st.waiting + w.inbox[..n]), inbox := w.inbox[n..], pc := Decoding));
    }
  }

  lemma PopsMeet(waiting: seq<Req>, inbox: seq<Req>, n: nat)
    requires 0 < n <= |inbox|
    ensures waiting + [inbox[0]] + inbox[1..][..n - 1] == waiting + inbox[..n] && inbox[1..][n - 1..] == inbox[n..]
  {}

  lemma {:induction false} Emits(be: Backend, w: World, pc: Pc)
    requires (w.pc == EmitDecode && pc == Prefilling) || (w.pc == EmitPrefill && pc == Settling)
    ensures Reaches(be, w, w.(responses := w.responses + w.outbox, outbox := [],
                              signalled := w.signalled || w.owesSignal, owesSignal := false, pc := pc))
    decreases |w.outbox|
  {
    hide Reaches;
    Step(be, w);
    if w.outbox == [] {
      assert w.responses + [] == w.responses;
    } else {
      var v := Emit(w, pc);
      Emits(be, v, pc);
      assert v.responses + v.outbox == w.responses + w.outbox;
      Chain(be, w, v, w.(responses := w.responses + w.outbox, outbox := [], signalled := w.signalled || w.owesSignal,
                         owesSignal := false, pc := pc));
    }
  }

  /** A batch function: compute, push the responses one by one, signal. */
  function Served(w: World, p: Phase, pc: Pc): World {
    w.(st := p.st, log := w.log + p.out, progress := w.progress || p.progress,
       responses := w.responses + p.out, signalled := w.signalled || p.out != [], pc := pc)
  }

  lemma Serves(be: Backend, w: World)
    requires w.outbox == [] && !w.owesSignal
    ensures w.pc == Decoding ==> Reaches(be, w, Served(w, DecodeHalf(be, w.st), Prefilling))
    ensures w.pc == Prefilling ==> Reaches(be, w, Served(w, PrefillHalf(be, w.st), Settling))
  {
    hide Reaches, DecodeHalf, PrefillHalf;
    if w.pc == Decoding {
      Step(be, w);
      Emits(be, Work(be, w), Prefilling);
      Chain(be, w, Work(be, w), Served(w, DecodeHalf(be, w.st), Prefilling));
    } else if w.pc == Prefilling {
      Step(be, w);
      Emits(be, Work(be, w), Settling);
      Chain(be, w, Work(be, w), Served(w, PrefillHalf(be, w.st), Settling));
    }
  }

  /** Where one uninterrupted turn of the worker loop leads. */
  function Turned(be: Backend, w: World): World {
    var n := if w.st.paused then 0 else DrainCount(w.inbox);
    var p := Iteration(be, w.st.(waiting := w.st.waiting + w.inbox[..n]));
    w.(st := p.st, inbox := w.inbox[n..], responses := w.responses + p.out, log := w.log + p.out,
       signalled := w.signalled || p.out != [], progress := p.progress, pc := if p.st.Idle() then Parked else Head)
  }

  lemma StartsTurn(be: Backend, w: World)
    requires w.pc == Head && w.st.running
    ensures var n := if w.st.paused then 0 else DrainCount(w.inbox);
            Reaches(be, w, w.(st := w.st.(waiting := w.st.waiting + w.inbox[..n]), inbox := w.inbox[n..],
                              progress := false, pc := Decoding))
  {
    hide Reaches;
    Step(be, w);
    if w.st.paused {
      assert w.st.waiting + w.inbox[..0] == w.st.waiting && w.inbox[0..] == w.inbox;
    } else {
      var v := w.(progress := false, pc := Draining(0));
      Drains(be, v, 0);
      var n := DrainCount(w.inbox);
      Chain(be, w, v, v.(st := w.st.(waiting := w.st.waiting + w.inbox[..n]), inbox := w.inbox[n..], pc := Decoding));
    }
  }

  /** The method WorkerTurn is a run of the interleaved scheduler in which no other thread moves. */
  lemma WorkerTurnIsARun(be: Backend, w: World)
    requires w.pc == Head && w.st.running && w.outbox == [] && !w.owesSignal
    ensures Reaches(be, w, Turned(be, w))
  {
    hide Reaches, DecodeHalf, PrefillHalf, SettleHalf, St.Idle;
    var n := if w.st.paused then 0 else DrainCount(w.inbox);
    var a := w.(st := w.st.(waiting := w.st.waiting + w.inbox[..n]), inbox := w.inbox[n..], progress := false,
        pc := Decoding);
    StartsTurn(be, w);
    Serves(be, a);
    var b := Served(a, DecodeHalf(be, a.st), Prefilling);
    Chain(be, w, a, b);
    Serves(be, b);
    var c := Served(b, PrefillHalf(be, b.st), Settling);
    Chain(be, w, b, c);
    Step(be, c);
    var p, q := DecodeHalf(be, a.st), PrefillHalf(be, b.st);
    assert w.responses + p.out + q.out == w.responses + (p.out + q.out);
    assert w.log + p.out + q.out == w.log + (p.out + q.out);
    assert Work(be, c) == Turned(be, w);
    Chain(be, w, c, Turned(be, w));
  }

  // ---- the event-loop thread ----

  function LoopTurns(n: nat): (e: seq<Occurrence>)
    ensures |e| == n && forall i :: 0 <= i < n ==> e[i] == LoopTurn
  {
    seq(n, _ => LoopTurn)
  }

  ghost predicate LoopReaches(be: Backend, s: Sys, s': Sys) {
    exists n: nat :: History(be, s, LoopTurns(n), s')
  }

  lemma LoopFirst(be: Backend, s: Sys, s': Sys)
    requires s.loop != Resting && LoopReaches(be, Next(be, s, LoopTurn), s')
    ensures LoopReaches(be, s, s')
  {
    hide Next;
    var n: nat :| History(be, Next(be, s, LoopTurn), LoopTurns(n), s');
    assert LoopTurns(n + 1)[1..] == LoopTurns(n);
    assert History(be, s, LoopTurns(n + 1), s');
  }

  lemma LoopStays(be: Backend, s: Sys)
    ensures LoopReaches(be, s, s)
  {
    assert History(be, s, LoopTurns(0), s);
  }

  /** The callback OnRead is a run of the interleaved system in which only the loop thread moves. */
  lemma {:induction false} ReadAllIsARun(be: Backend, s: Sys, c: nat)
    requires c in s.clients && s.loop == Reading(c)
    ensures LoopReaches(be, s, ReadAll(s, c))
    decreases |s.clients[c].buffer|
  {
    hide LoopReaches, ParseLine, NewRequest, Render, Newline;
    assert Next(be, s, LoopTurn) == ReadLine(s, c);
    if Newline(s.clients[c].buffer) == |s.clients[c].buffer| {
      ReadDone(s, c);
      LoopStays(be, ReadAll(s, c));
    } else {
      ReadStep(s, c);
      ReadAllIsARun(be, ReadLine(s, c), c);
    }
    LoopFirst(be, s, ReadAll(s, c));
  }

  /** The callback OnResponseAsync is a run of the interleaved system in which only the loop thread moves. */
  lemma {:induction false} DispatchAllIsARun(be: Backend, s: Sys)
    requires s.loop == Dispatching
    ensures LoopReaches(be, s, DispatchAll(s))
    decreases |s.world.responses|
  {
    hide LoopReaches, EnqueueWrite;
    assert Next(be, s, LoopTurn) == DispatchOne(s);
    if s.world.responses == [] {
      LoopStays(be, DispatchAll(s));
    } else {
      DispatchAllIsARun(be, DispatchOne(s));
    }
    LoopFirst(be, s, DispatchAll(s));
  }
}

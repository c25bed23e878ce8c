/** The scheduler thread and everything that may happen around it, as interleaved atomic steps. */
module Worker {
  import opened Types
  import opened Allocation
  import opened Backends
  import opened SchedulerModel

  /** Where the scheduler thread is. Between two of these points it touches nothing shared. */
  datatype Pc =
    | Head | Draining(tries: nat) | Decoding | EmitDecode | Prefilling | EmitPrefill | Settling | Parked | Exited

  datatype World = World(
    st: St, pc: Pc,
    progress: bool,          // whether this iteration has moved anything
    outbox: seq<Resp>,       // responses of the current batch function not pushed yet
    owesSignal: bool,        // the current batch function will signal the loop before it returns
    inbox: seq<Req>, closed: bool,          // request_queue_
    responses: seq<Resp>, signalled: bool,  // response_queue_ and the pending uv_async signal
    arrived: seq<Req>,       // history: every request pushed so far
    log: seq<Resp>,          // history: every response produced so far
    taken: seq<Resp>)        // history: every response popped so far

  function Boot(policy: Policy): World {
    World(St([], [], [], [], [], [], [], false, true, Alloc(policy, 0, 0)), Head, false, [], false,
          [], false, [], false, [], [], [])
  }

  predicate CanWork(w: World) {
    !w.pc.Exited? && (w.pc.Parked? ==> w.inbox != [] || w.closed)
  }

  function PopOne(w: World, pc: Pc): World
    requires w.inbox != []
  {
    w.(st := w.st.(waiting := w.st.waiting + [w.inbox[0]]), inbox := w.inbox[1..], pc := pc)
  }

  function Batch(w: World, p: Phase, pc: Pc): World {
    w.(st := p.st, outbox := p.out, owesSignal := p.out != [], log := w.log + p.out,
       progress := w.progress || p.progress, pc := pc)
  }

  function Emit(w: World, pc: Pc): World {
    if w.outbox != [] then w.(responses := w.responses + [w.outbox[0]], outbox := w.outbox[1..])
    else w.(signalled := w.signalled || w.owesSignal, owesSignal := false, pc := pc)
  }

  /** The scheduler thread's next atomic step. */
  function Work(be: Backend, w: World): World
    requires CanWork(w)
  {
    match w.pc
    case Head =>
      if !w.st.running then w.(pc := Exited)
      else w.(progress := false, pc := if w.st.paused then Decoding else Draining(0))
    case Draining(k) =>
      if k < MAX_BATCH && w.inbox != [] then PopOne(w, Draining(k + 1)) else w.(pc := Decoding)
    case Decoding => Batch(w, DecodeHalf(be, w.st), EmitDecode)
    case EmitDecode => Emit(w, Prefilling)
    case Prefilling => Batch(w, PrefillHalf(be, w.st), EmitPrefill)
    case EmitPrefill => Emit(w, Settling)
    case Settling =>
      var p := SettleHalf(w.st, w.progress);
      w.(st := p.st, progress := p.progress, pc := if p.st.Idle() then Parked else Head)
    case Parked =>
      if w.inbox != [] then PopOne(w, Head)
      else w.(st := w.st.(running := false), pc := Head)
  }

  /** What other threads do: submit, close, stop, consume the signal, pop a response. */
  datatype Event = Turn | Push(req: Req) | Close | Stop | Hear | Take

  predicate Fresh(w: World, r: Req) {
    r == NewRequest(r.id, r.tokens, r.maxNew) && forall i :: 0 <= i < |w.arrived| ==> w.arrived[i].id != r.id
  }

  predicate Enabled(w: World, e: Event) {
    match e
    case Turn => CanWork(w)
    case Push(r) => Fresh(w, r)
    case Take => w.responses != []
    case _ => true
  }

  function After(be: Backend, w: World, e: Event): World
    requires Enabled(w, e)
  {
    match e
    case Turn => Work(be, w)
    case Push(r) => w.(inbox := w.inbox + [r], arrived := w.arrived + [r])
    case Close => w.(closed := true)
    case Stop => w.(st := w.st.(running := false))
    case Hear => w.(signalled := false)
    case Take => w.(responses := w.responses[1..], taken := w.taken + [w.responses[0]])
  }

  /** A run is any sequence of enabled events. */
  ghost predicate Run(be: Backend, w: World, events: seq<Event>, w': World)
    decreases |events|
  {
    if events == [] then w' == w
    else Enabled(w, events[0]) && Run(be, After(be, w, events[0]), events[1..], w')
  }

  // ---- the steps one by one, for proofs that need no other ----

  lemma WorkHead(be: Backend, w: World)
    requires w.pc.Head?
    ensures Work(be, w) == if !w.st.running then w.(pc := Exited)
                           else w.(progress := false, pc := if w.st.paused then Decoding else Draining(0))
  {}

  lemma WorkDraining(be: Backend, w: World)
    requires w.pc.Draining?
    ensures Work(be, w) == if w.pc.tries < MAX_BATCH && w.inbox != [] then PopOne(w, Draining(w.pc.tries + 1))
                           else w.(pc := Decoding)
  {
    hide PopOne;
  }

  lemma WorkDecoding(be: Backend, w: World)
    requires w.pc.Decoding?
    ensures Work(be, w) == Batch(w, DecodeHalf(be, w.st), EmitDecode)
  {
    hide Batch, DecodeHalf;
  }

  lemma WorkPrefilling(be: Backend, w: World)
    requires w.pc.Prefilling?
    ensures Work(be, w) == Batch(w, PrefillHalf(be, w.st), EmitPrefill)
  {
    hide Batch, PrefillHalf;
  }

  lemma WorkEmitting(be: Backend, w: World)
    requires w.pc.EmitDecode? || w.pc.EmitPrefill?
    ensures Work(be, w) == Emit(w, if w.pc.EmitDecode? then Pc.Prefilling else Settling)
  {
    hide Emit;
  }

  lemma WorkSettling(be: Backend, w: World)
    requires w.pc.Settling?
    ensures var p := SettleHalf(w.st, w.progress);
            Work(be, w) == w.(st := p.st, progress := p.progress, pc := if p.st.Idle() then Parked else Head)
  {
    hide SettleHalf;
  }

  lemma WorkParked(be: Backend, w: World)
    requires w.pc.Parked? && CanWork(w)
    ensures Work(be, w) == if w.inbox != [] then PopOne(w, Head) else w.(st := w.st.(running := false), pc := Head)
  {
    hide PopOne;
  }

  /** What a batch and the emission of a response leave alone. */
  lemma BatchFields(w: World, p: Phase, pc: Pc)
    ensures var v := Batch(w, p, pc);
            && v.st == p.st && v.inbox == w.inbox && v.closed == w.closed && v.arrived == w.arrived
            && v.log == w.log + p.out && v.pc == pc && v.progress == (w.progress || p.progress) && v.outbox == p.out
            && v.responses == w.responses && v.taken == w.taken && v.signalled == w.signalled
    ensures var v := Emit(w, pc);
            && v.st == w.st && v.inbox == w.inbox && v.closed == w.closed && v.arrived == w.arrived
            && v.log == w.log && v.progress == w.progress && v.taken == w.taken
            && v.pc == (if w.outbox == [] then pc else w.pc)
  {}

  /** What a pop leaves alone. */
  lemma PopFields(w: World, pc: Pc)
    requires w.inbox != []
    ensures var v := PopOne(w, pc);
            && v.st == w.st.(waiting := w.st.waiting + [w.inbox[0]]) && v.inbox == w.inbox[1..]
            && v.arrived == w.arrived && v.log == w.log && v.pc == pc && v.outbox == w.outbox
            && v.owesSignal == w.owesSignal && v.responses == w.responses && v.taken == w.taken
            && v.signalled == w.signalled && v.closed == w.closed && v.progress == w.progress
  {}
}

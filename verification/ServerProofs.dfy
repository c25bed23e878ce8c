/** End-to-end guarantees of the server: from bytes in to bytes out, under every interleaving. */
module ServerProofs {
  import opened Types
  import opened Allocation
  import opened Backends
  import opened SchedulerModel
  import opened Ledger
  import opened Phases
  import opened Worker
  import opened WorkerInvariants
  import opened Theorems
  import opened Text
  import opened Framing
  import opened ServerModel

  // ---- ids and clients ----

  /** Ids are handed out in order from 1, and every request is what the server builds from a line. */
  ghost predicate Numbered(nextId: nat, arrived: seq<Req>, origin: map<nat, nat>) {
    && nextId == |arrived| + 1
    && (forall k :: 0 <= k < |arrived| ==> arrived[k] == NewRequest(k + 1, arrived[k].tokens, SERVER_MAX_NEW))
    && (forall id :: id in origin <==> 1 <= id <= |arrived|)
  }

  ghost predicate Mapped(origin: map<nat, nat>, reqToClient: map<nat, nat>, clients: set<nat>) {
    && (forall id :: id in origin ==> origin[id] in clients)
    && (forall id :: id in reqToClient ==> id in origin && reqToClient[id] == origin[id])
  }

  ghost predicate Link(s: Sys) {
    && Numbered(s.nextId, s.world.arrived, s.origin)
    && Mapped(s.origin, s.reqToClient, s.clients.Keys)
    && (s.loop.Reading? ==> s.loop.client in s.clients)
  }

  /** The last response to this id has been popped. */
  ghost predicate Ended(log: seq<Resp>, id: nat) {
    exists k :: 0 <= k < |log| && log[k].id == id && log[k].finished
  }

  ghost predicate Opened(origin: map<nat, nat>, reqToClient: map<nat, nat>, taken: seq<Resp>) {
    forall id :: id in origin ==> (id in reqToClient <==> !Ended(taken, id))
  }

  /** An id is on record exactly until its last response has been popped. */
  ghost predicate Open(s: Sys) { Opened(s.origin, s.reqToClient, s.world.taken) }

  ghost predicate Awake(s: Sys) {
    s.world.responses != [] ==> s.world.signalled || s.loop == Dispatching || s.world.owesSignal
  }

  function Answers(items: seq<Item>): seq<Resp> {
    if items == [] then []
    else Answers(items[..|items| - 1]) + (match items[|items| - 1] case Invalid => [] case Answer(r) => [r])
  }

  /** Everything popped for an id went to the client that submitted it, in order, and nowhere else. */
  ghost predicate Routed(origin: map<nat, nat>, taken: seq<Resp>, items: seq<Item>, c: nat, id: nat) {
    Project(Answers(items), id) == if id in origin && origin[id] == c then Project(taken, id) else []
  }

  ghost predicate AllRouted(s: Sys) {
    forall c, id: nat :: c in s.clients ==> Routed(s.origin, s.world.taken, s.clients[c].items, c, id)
  }

  // ---- one client ----

  /** What is written, in flight or queued is what was enqueued, and an idle connection owes nothing. */
  ghost predicate Flowing(c: Client) {
    && c.sent + c.flight + Concat(c.writes) == RenderAll(c.items)
    && (!c.writing ==> c.flight == "" && c.writes == [])
  }

  ghost predicate Framed(c: Client, reading: bool) {
    && c.received == Unframe(c.lines) + c.buffer
    && (!reading ==> '\n' !in c.buffer)
    && forall i :: 0 <= i < |c.lines| ==> '\n' !in c.lines[i]
  }

  /** The token lists of the lines that hold at least one number. */
  function Parsed(lines: seq<string>): seq<seq<int>> {
    if lines == [] then [] else Parsed(lines[..|lines| - 1]) + NonEmpty(ParseLine(lines[|lines| - 1]))
  }

  function NonEmpty(tokens: seq<int>): seq<seq<int>> { if tokens == [] then [] else [tokens] }

  function BadLines(lines: seq<string>): nat {
    if lines == [] then 0
    else BadLines(lines[..|lines| - 1]) + if ParseLine(lines[|lines| - 1]) == [] then 1 else 0
  }

  function Invalids(items: seq<Item>): nat {
    if items == [] then 0
    else Invalids(items[..|items| - 1]) + if items[|items| - 1].Invalid? then 1 else 0
  }

  /** Each line of the client with a number in it has become one request, the others one complaint. */
  ghost predicate Assigned(origin: map<nat, nat>, arrived: seq<Req>, cl: Client, c: nat) {
    var ids := cl.accepted;
    && (forall j :: 0 <= j < |ids| ==> ids[j] in origin && origin[ids[j]] == c && 1 <= ids[j] <= |arrived|)
    && |Parsed(cl.lines)| == |ids|
    && (forall j :: 0 <= j < |ids| ==> arrived[ids[j] - 1].tokens == Parsed(cl.lines)[j])
    && Invalids(cl.items) == BadLines(cl.lines)
  }

  ghost predicate ClientOk(s: Sys, c: nat)
    requires c in s.clients
  {
    && Flowing(s.clients[c]) && Framed(s.clients[c], s.loop == Reading(c))
    && Assigned(s.origin, s.world.arrived, s.clients[c], c)
  }

  ghost predicate ClientsOk(s: Sys) {
    forall c :: c in s.clients ==> ClientOk(s, c)
  }

  /** Every id is among those its client was given. */
  ghost predicate Registered(s: Sys) {
    forall id :: id in s.origin && s.origin[id] in s.clients ==> id in s.clients[s.origin[id]].accepted
  }

  ghost predicate Consistent(be: Backend, policy: Policy, s: Sys) {
    Reachable(be, policy, s.world) && Link(s) && Open(s) && Awake(s) && AllRouted(s) && ClientsOk(s) && Registered(s)
  }

  // ---- strings and histories ----

  lemma RenderSnoc(items: seq<Item>, i: Item)
    ensures RenderAll(items + [i]) == RenderAll(items) + Render(i)
    ensures Answers(items + [i]) == Answers(items) + (match i case Invalid => [] case Answer(r) => [r])
    ensures Invalids(items + [i]) == Invalids(items) + if i.Invalid? then 1 else 0
  {
    assert (items + [i])[..|items|] == items;
  }

  lemma ParsedSnoc(lines: seq<string>, l: string)
    ensures Parsed(lines + [l]) == Parsed(lines) + NonEmpty(ParseLine(l))
    ensures BadLines(lines + [l]) == BadLines(lines) + if ParseLine(l) == [] then 1 else 0
  {
    assert (lines + [l])[..|lines|] == lines;
  }

  lemma ProjectSnoc(log: seq<Resp>, r: Resp, id: nat)
    ensures Project(log + [r], id) == Project(log, id) + if r.id == id then [r] else []
  {
    assert (log + [r])[..|log|] == log;
  }

  lemma StartWriteFlows(c: Client)
    requires c.sent + c.flight + Concat(c.writes) == RenderAll(c.items)
    requires !c.writing ==> c.flight == ""
    ensures Flowing(StartWrite(c))
  {
    hide RenderAll;
  }

  lemma EnqueueFlows(c: Client, i: Item)
    requires Flowing(c)
    ensures Flowing(EnqueueWrite(c, i))
  {
    RenderSnoc(c.items, i);
    ConcatSnoc(c.writes, Render(i));
    hide RenderAll, Concat, Render;
    var d := c.(writes := c.writes + [Render(i)], items := c.items + [i]);
    assert d.sent + d.flight + (Concat(c.writes) + Render(i)) == c.sent + c.flight + Concat(c.writes) + Render(i);
    StartWriteFlows(d);
  }

  lemma OnWriteFlows(c: Client)
    requires Flowing(c)
    ensures Flowing(OnWrite(c))
  {
    hide RenderAll;
    var d := c.(sent := c.sent + c.flight, flight := "", writing := false);
    assert d.sent + d.flight + Concat(d.writes) == c.sent + c.flight + Concat(c.writes);
    StartWriteFlows(d);
  }

  // ---- no response is dropped ----

  lemma {:induction false} EndedProject(log: seq<Resp>, id: nat, k: nat) returns (j: nat)
    requires k < |log| && log[k].id == id && log[k].finished
    ensures j < |Project(log, id)| && Project(log, id)[j].finished
  {
    if k == |log| - 1 {
      j := |Project(log, id)| - 1;
    } else {
      j := EndedProject(log[..|log| - 1], id, k);
    }
  }

  /** Nothing follows the finished response of a request. */
  lemma EndedIsLast(be: Backend, m: Model, policy: Policy, w: World, i: nat, k: nat)
    requires Reachable(be, policy, w) && Pointwise(be, m) && i < |w.arrived|
    requires k < |w.taken| && w.taken[k].id == w.arrived[i].id && w.taken[k].finished
    ensures Project(w.responses + w.outbox, w.arrived[i].id) == []
  {
    hide Queued, Conserved, Unshared, Pointwise, Reachable, Full, Rest;
    var id, rest := w.arrived[i].id, w.responses + w.outbox;
    ReachableSound(be, policy, w);
    var j := EndedProject(w.taken, id, k);
    var x := SentPlusRestIsSequential(be, m, policy, w, i);
    ProjectConcat(w.taken, rest, id);
    assert w.log == w.taken + rest;
    FullFlags(m, w.arrived[i].ToCore());
    assert Full(m, w.arrived[i].ToCore())[j].finished;
  }

  lemma FullFlags(m: Model, c: Core)
    ensures var f := Full(m, c); forall k :: 0 <= k < |f| ==> (f[k].finished <==> k == |f| - 1)
  {
    RestFlags(m, Prompted(c));
  }

  /** The head of the response queue always belongs to a client that is still waiting for it. */
  lemma HeadIsOpen(be: Backend, m: Model, policy: Policy, s: Sys)
    requires Reachable(be, policy, s.world) && Pointwise(be, m) && Link(s) && Open(s)
    requires s.world.responses != []
    ensures s.world.responses[0].id in s.reqToClient
  {
    var w, r := s.world, s.world.responses[0];
    var i := ResponseArrived(be, m, policy, w);
    assert r.id == i + 1 && r.id in s.origin;
    if Ended(w.taken, r.id) {
      var k :| 0 <= k < |w.taken| && w.taken[k].id == r.id && w.taken[k].finished;
      EndedIsLast(be, m, policy, w, i, k);
      assert (w.responses + w.outbox)[0] == r;
      HeadProjects(w.responses + w.outbox, r.id);
    }
  }

  lemma ResponseArrived(be: Backend, m: Model, policy: Policy, w: World) returns (i: nat)
    requires Reachable(be, policy, w) && Pointwise(be, m) && w.responses != []
    ensures i < |w.arrived| && w.arrived[i].id == w.responses[0].id
  {
    hide Queued, Conserved, Unshared, InBalance, Pointwise, Reachable;
    ReachableAccounted(be, m, policy, w);
    assert w.log[|w.taken|] == w.responses[0];
    assert Arrived(w.arrived, w.responses[0].id);
    i :| 0 <= i < |w.arrived| && w.arrived[i].id == w.responses[0].id;
  }

  lemma HeadProjects(log: seq<Resp>, id: nat)
    requires log != [] && log[0].id == id
    ensures Project(log, id) != []
  {
    ProjectConcat([log[0]], log[1..], id);
    assert [log[0]] + log[1..] == log;
    assert [log[0]][..0] == [];
  }

  // ---- the steps ----

  /** The parts of the state that the clients' guarantees depend on, besides the clients. */
  ghost predicate SameHistory(s: Sys, s': Sys) {
    && s'.origin == s.origin && s'.reqToClient == s.reqToClient && s'.nextId == s.nextId
    && s'.world.arrived == s.world.arrived && s'.world.taken == s.world.taken
  }

  lemma NoClientChanged(s: Sys, s': Sys)
    requires ClientsOk(s) && AllRouted(s) && Registered(s) && SameHistory(s, s') && s'.clients == s.clients
    requires s'.loop == s.loop || !s.loop.Reading?
    ensures ClientsOk(s') && AllRouted(s') && Registered(s')
  {
    hide Flowing, Framed, Assigned, Routed;
    forall c | c in s'.clients
      ensures ClientOk(s', c)
    {
      assert ClientOk(s, c);
      FramedEither(s.clients[c], s.loop == Reading(c), s'.loop == Reading(c));
    }
  }

  /** Client c has changed, but not what it has submitted or been answered. */
  lemma OneClientChanged(s: Sys, s': Sys, c: nat)
    requires ClientsOk(s) && AllRouted(s) && Registered(s) && SameHistory(s, s')
    requires c in s.clients && c in s'.clients && s'.clients == s.clients[c := s'.clients[c]]
    requires ClientOk(s', c) && s'.clients[c].accepted == s.clients[c].accepted
    requires Answers(s'.clients[c].items) == Answers(s.clients[c].items)
    requires s.loop == Reading(c) || !s.loop.Reading?
    ensures ClientsOk(s') && AllRouted(s') && Registered(s')
  {
    OthersOk(s, s', c);
    hide ClientOk, Answers, Project;
    forall d, id: nat | d in s'.clients
      ensures Routed(s'.origin, s'.world.taken, s'.clients[d].items, d, id)
    {
      assert Routed(s.origin, s.world.taken, s.clients[d].items, d, id);
    }
  }

  lemma OthersOk(s: Sys, s': Sys, c: nat)
    requires ClientsOk(s) && s'.origin == s.origin && s'.world.arrived == s.world.arrived
    requires c in s.clients && c in s'.clients && s'.clients == s.clients[c := s'.clients[c]] && ClientOk(s', c)
    requires s.loop == Reading(c) || !s.loop.Reading?
    ensures ClientsOk(s')
  {
    hide Flowing, Framed, Assigned;
    forall d | d in s'.clients
      ensures ClientOk(s', d)
    {
      assert ClientOk(s, d);
      if d != c { FramedEither(s.clients[d], s.loop == Reading(d), s'.loop == Reading(d)); }
    }
  }

  lemma FramedEither(c: Client, was: bool, reading: bool)
    requires Framed(c, was) && (was ==> reading)
    ensures Framed(c, reading)
  {}

  lemma SchedulerTurnKeeps(be: Backend, policy: Policy, s: Sys)
    requires Consistent(be, policy, s) && CanWork(s.world)
    ensures Consistent(be, policy, Next(be, s, SchedulerTurn))
  {
    var s' := Next(be, s, SchedulerTurn);
    hide Queued, Conserved, Unshared, ClientsOk, AllRouted, Registered, Reachable, Work, Link, Open, Streams, After;
    hide Awake;
    EnabledAgain(s.world);
    AfterTurn(be, s.world);
    ReachableNext(be, policy, s.world, Turn);
    ReachableSound(be, policy, s.world);
    TurnShared(be, s.world);
    NoClientChanged(s, s');
    SameLinks(s, s');
    AwakeTurn(be, s);
  }

  lemma EnabledAgain(w: World)
    requires CanWork(w)
    ensures Enabled(w, Turn)
  {  }

  lemma AwakeTurn(be: Backend, s: Sys)
    requires Streams(s.world) && Awake(s) && CanWork(s.world)
    ensures Awake(s.(world := Work(be, s.world)))
  {
    hide Work, Streams;
    TurnShared(be, s.world);
  }

  lemma TurnShared(be: Backend, w: World)
    requires CanWork(w) && Streams(w)
    ensures var v := Work(be, w);
            && v.arrived == w.arrived && v.taken == w.taken
            && (v.responses != w.responses ==> v.owesSignal)
            && (w.signalled || w.owesSignal ==> v.signalled || v.owesSignal)
  {
    hide DecodeHalf, PrefillHalf, SettleHalf, Work, Worker.Batch, Emit, PopOne, St.Idle;
    match w.pc {
      case Head => WorkHead(be, w);
      case Draining(k) => WorkDraining(be, w); if w.inbox != [] { PopFields(w, Draining(k + 1)); }
      case Decoding => WorkDecoding(be, w); BatchShared(w, DecodeHalf(be, w.st), EmitDecode);
      case Prefilling => WorkPrefilling(be, w); BatchShared(w, PrefillHalf(be, w.st), EmitPrefill);
      case Settling => WorkSettling(be, w);
      case Parked => WorkParked(be, w); if w.inbox != [] { PopFields(w, Head); }
      case _ =>
        WorkEmitting(be, w);
        BatchShared(w, Phase(w.st, [], false), if w.pc.EmitDecode? then Pc.Prefilling else Settling);
    }
  }

  lemma BatchShared(w: World, p: Phase, pc: Pc)
    ensures var v := Worker.Batch(w, p, pc);
            && v.arrived == w.arrived && v.taken == w.taken && v.responses == w.responses
            && v.signalled == w.signalled && v.owesSignal == (p.out != [])
    ensures var v := Emit(w, pc);
            && v.arrived == w.arrived && v.taken == w.taken
            && (v.responses != w.responses ==> v.owesSignal == w.owesSignal && w.outbox != [])
            && (w.signalled || w.owesSignal ==> v.signalled || v.owesSignal)
  {}

  lemma SameLinks(s: Sys, s': Sys)
    requires Link(s) && Open(s) && SameHistory(s, s') && s'.clients == s.clients && s'.loop == s.loop
    ensures Link(s') && Open(s')
  {
    hide Numbered, Mapped, Opened;
  }

  lemma QuietKeeps(be: Backend, policy: Policy, s: Sys, o: Occurrence)
    requires Consistent(be, policy, s) && (o.Shutdown? || o.StopWorker?)
    ensures Consistent(be, policy, Next(be, s, o))
  {
    hide Reachable, ClientsOk, AllRouted, Registered, Numbered, Opened;
    ReachableNext(be, policy, s.world, if o.Shutdown? then Close else Stop);
    NoClientChanged(s, Next(be, s, o));
  }

  lemma WakeUpKeeps(be: Backend, policy: Policy, s: Sys)
    requires Consistent(be, policy, s) && Possible(s, WakeUp)
    ensures Consistent(be, policy, Next(be, s, WakeUp))
  {
    hide Reachable, ClientsOk, AllRouted, Registered, Numbered, Opened;
    ReachableNext(be, policy, s.world, Hear);
    NoClientChanged(s, Next(be, s, WakeUp));
  }

  lemma NewClientOk(s: Sys, s': Sys, c: nat)
    requires ClientsOk(s) && AllRouted(s) && Registered(s) && SameHistory(s, s') && Link(s)
    requires c !in s.clients && s'.clients == s.clients[c := NewClient()] && s'.loop == s.loop == Resting
    ensures ClientsOk(s') && AllRouted(s') && Registered(s')
  {
    hide ClientsOk, Numbered, Registered, AllRouted;
    NewClientClients(s, s', c);
    NewClientRouted(s, s', c);
    NewClientRegistered(s, s', c);
  }

  lemma NewClientRegistered(s: Sys, s': Sys, c: nat)
    requires Registered(s) && s'.origin == s.origin && Mapped(s.origin, s.reqToClient, s.clients.Keys)
    requires c !in s.clients && s'.clients == s.clients[c := NewClient()]
    ensures Registered(s')
  {}

  lemma NewClientRouted(s: Sys, s': Sys, c: nat)
    requires AllRouted(s) && SameHistory(s, s') && Mapped(s.origin, s.reqToClient, s.clients.Keys)
    requires c !in s.clients && s'.clients == s.clients[c := NewClient()]
    ensures AllRouted(s')
  {
    forall d, id: nat | d in s'.clients
      ensures Routed(s'.origin, s'.world.taken, s'.clients[d].items, d, id)
    {
      if d != c { assert Routed(s.origin, s.world.taken, s.clients[d].items, d, id); }
    }
  }

  lemma NewClientClients(s: Sys, s': Sys, c: nat)
    requires ClientsOk(s) && SameHistory(s, s') && Link(s)
    requires c !in s.clients && s'.clients == s.clients[c := NewClient()] && s'.loop == s.loop == Resting
    ensures ClientsOk(s')
  {
    assert Flowing(NewClient()) && Framed(NewClient(), false);
    assert Assigned(s.origin, s.world.arrived, NewClient(), c);
    hide Flowing, Framed, Assigned, Numbered;
    forall d | d in s'.clients
      ensures ClientOk(s', d)
    {
      if d != c { assert ClientOk(s, d); }
    }
  }

  lemma ConnectKeeps(be: Backend, policy: Policy, s: Sys, c: nat)
    requires Consistent(be, policy, s) && Possible(s, Connect(c))
    ensures Consistent(be, policy, Next(be, s, Connect(c)))
  {
    hide Reachable, ClientsOk, AllRouted, Registered, Numbered, Opened;
    NewClientOk(s, Next(be, s, Connect(c)), c);
  }

  lemma BytesFrames(cl: Client, data: string)
    requires Framed(cl, false)
    ensures Framed(cl.(buffer := cl.buffer + data, received := cl.received + data), true)
  {
    hide Unframe;
    assert Unframe(cl.lines) + (cl.buffer + data) == Unframe(cl.lines) + cl.buffer + data;
  }

  lemma TakenSame(origin: map<nat, nat>, arrived: seq<Req>, cl: Client, cl': Client, c: nat)
    requires Assigned(origin, arrived, cl, c)
    requires cl'.accepted == cl.accepted && cl'.lines == cl.lines && cl'.items == cl.items
    ensures Assigned(origin, arrived, cl', c)
  {}

  lemma BytesOk(s: Sys, c: nat, data: string)
    requires ClientsOk(s) && Possible(s, Bytes(c, data))
    ensures ClientOk(s.(clients := s.clients[c := s.clients[c].(buffer := s.clients[c].buffer + data,
                                                                received := s.clients[c].received + data)],
                        loop := Reading(c)), c)
  {
    var cl := s.clients[c];
    assert ClientOk(s, c);
    BytesFrames(cl, data);
    var cl' := cl.(buffer := cl.buffer + data, received := cl.received + data);
    TakenSame(s.origin, s.world.arrived, cl, cl', c);
    hide Framed, Assigned, RenderAll, Concat;
    assert Flowing(cl');
  }

  /** An event that only touches one client keeps everything else. */
  lemma ClientEventKeeps(be: Backend, policy: Policy, s: Sys, s': Sys, c: nat)
    requires Consistent(be, policy, s) && c in s.clients && c in s'.clients
        && s'.clients == s.clients[c := s'.clients[c]]
    requires s' == s.(clients := s'.clients, loop := s'.loop) && !s.loop.Reading? && s.loop != Dispatching
    requires s'.loop.Reading? ==> s'.loop.client == c
    requires ClientOk(s', c) && s'.clients[c].accepted == s.clients[c].accepted
    requires s'.clients[c].items == s.clients[c].items
    ensures Consistent(be, policy, s')
  {
    hide Reachable, AllRouted, Registered, Numbered, Mapped, Opened, ClientsOk, ClientOk, Answers;
    OneClientChanged(s, s', c);
    assert s'.clients.Keys == s.clients.Keys;
  }

  lemma ConsistentClients(be: Backend, policy: Policy, s: Sys)
    requires Consistent(be, policy, s)
    ensures ClientsOk(s)
  {}

  lemma BytesKeeps(be: Backend, policy: Policy, s: Sys, c: nat, data: string)
    requires Consistent(be, policy, s) && Possible(s, Bytes(c, data))
    ensures Consistent(be, policy, Next(be, s, Bytes(c, data)))
  {
    hide Consistent, ClientOk;
    var s' := s.(clients := s.clients[c := s.clients[c].(buffer := s.clients[c].buffer + data,
                                                         received := s.clients[c].received + data)],
                                                             loop := Reading(c));
    assert Next(be, s, Bytes(c, data)) == s';
    ConsistentClients(be, policy, s);
    BytesOk(s, c, data);
    ClientEventKeeps(be, policy, s, s', c);
  }

  lemma WrittenOk(s: Sys, c: nat)
    requires ClientsOk(s) && Possible(s, Written(c))
    ensures ClientOk(s.(clients := s.clients[c := OnWrite(s.clients[c])]), c)
    ensures OnWrite(s.clients[c]).items == s.clients[c].items && OnWrite(s.clients[c]).accepted == s.clients[c].accepted
  {
    var cl := s.clients[c];
    assert ClientOk(s, c);
    OnWriteFlows(cl);
    TakenSame(s.origin, s.world.arrived, cl, OnWrite(cl), c);
    hide Flowing, Assigned, Unframe;
  }

  lemma WrittenKeeps(be: Backend, policy: Policy, s: Sys, c: nat)
    requires Consistent(be, policy, s) && Possible(s, Written(c))
    ensures Consistent(be, policy, Next(be, s, Written(c)))
  {
    hide Consistent, ClientOk, OnWrite;
    var s' := s.(clients := s.clients[c := OnWrite(s.clients[c])]);
    assert Next(be, s, Written(c)) == s';
    ConsistentClients(be, policy, s);
    WrittenOk(s, c);
    ClientEventKeeps(be, policy, s, s', c);
  }

  lemma DoneReadingKeeps(be: Backend, policy: Policy, s: Sys, c: nat)
    requires Consistent(be, policy, s) && s.loop == Reading(c) && Newline(s.clients[c].buffer) == |s.clients[c].buffer|
    ensures Consistent(be, policy, s.(loop := Resting))
  {
    var s' := s.(loop := Resting);
    hide Reachable, AllRouted, Registered, Numbered, Mapped, Opened, Flowing, Answers, Assigned, Unframe;
    assert ClientOk(s, c);
    assert ClientOk(s', c);
    assert s.clients[c := s.clients[c]] == s.clients;
    OneClientChanged(s, s', c);
  }

  /** The client after a line has been cut off its buffer. */
  lemma Regroup(a: string, b: string, c: string)
    ensures a + (b + "\n" + c) == a + b + "\n" + c
  {}

  lemma CutFrames(cl: Client, p: nat)
    requires Framed(cl, true) && p < |cl.buffer| && p == Newline(cl.buffer)
    ensures Framed(cl.(buffer := cl.buffer[p + 1..], lines := cl.lines + [cl.buffer[..p]]), true)
  {
    UnframeSnoc(cl.lines, cl.buffer[..p]);
    hide Unframe, Newline;
    assert cl.buffer == cl.buffer[..p] + "\n" + cl.buffer[p + 1..];
    assert '\n' !in cl.buffer[..p];
    Regroup(Unframe(cl.lines), cl.buffer[..p], cl.buffer[p + 1..]);
  }

  lemma TakenBad(origin: map<nat, nat>, arrived: seq<Req>, cl: Client, cl': Client, c: nat)
    requires Assigned(origin, arrived, cl, c) && cl'.accepted == cl.accepted
    requires Parsed(cl'.lines) == Parsed(cl.lines)
    requires BadLines(cl'.lines) == BadLines(cl.lines) + 1 && Invalids(cl'.items) == Invalids(cl.items) + 1
    ensures Assigned(origin, arrived, cl', c)
  {}

  lemma EnqueueKeeps(cl: Client, i: Item)
    ensures var cl' := EnqueueWrite(cl, i);
            && cl'.items == cl.items + [i] && cl'.accepted == cl.accepted && cl'.lines == cl.lines
            && cl'.buffer == cl.buffer && cl'.received == cl.received
  {}

  lemma FramedSame(cl: Client, cl': Client, reading: bool)
    requires Framed(cl, reading) && cl'.received == cl.received && cl'.lines == cl.lines && cl'.buffer == cl.buffer
    ensures Framed(cl', reading)
  {}

  lemma BadLineRead(s: Sys, c: nat)
    requires c in s.clients && Newline(s.clients[c].buffer) < |s.clients[c].buffer|
    requires ParseLine(FirstLine(s.clients[c])) == []
    ensures ReadLine(s, c) == s.(clients := s.clients[c := EnqueueWrite(Cut(s.clients[c]), Invalid)])
  {
    hide Newline, ParseLine, EnqueueWrite;
  }

  lemma BadLineOk(origin: map<nat, nat>, arrived: seq<Req>, c: nat, cl: Client, cl': Client)
    requires Flowing(cl) && Framed(cl, true) && Assigned(origin, arrived, cl, c)
    requires Newline(cl.buffer) < |cl.buffer| && ParseLine(FirstLine(cl)) == []
    requires cl' == EnqueueWrite(Cut(cl), Invalid)
    ensures Flowing(cl') && Framed(cl', true) && Assigned(origin, arrived, cl', c)
    ensures Answers(cl'.items) == Answers(cl.items) && cl'.accepted == cl.accepted
  {
    hide Framed, Assigned, Newline, ParseLine, Parsed, BadLines, Invalids, Answers, RenderAll, EnqueueWrite, Unframe,
        Concat;
    CutFrames(cl, Newline(cl.buffer));
    ParsedSnoc(cl.lines, FirstLine(cl));
    RenderSnoc(cl.items, Invalid);
    assert Flowing(Cut(cl));
    EnqueueFlows(Cut(cl), Invalid);
    EnqueueKeeps(Cut(cl), Invalid);
    FramedSame(Cut(cl), cl', true);
    assert Answers(cl.items) + [] == Answers(cl.items);
    assert Parsed(cl.lines) + [] == Parsed(cl.lines);
    TakenBad(origin, arrived, cl, cl', c);
  }

  lemma BadLineKeeps(be: Backend, policy: Policy, s: Sys, c: nat)
    requires Consistent(be, policy, s) && s.loop == Reading(c)
    requires Newline(s.clients[c].buffer) < |s.clients[c].buffer| && ParseLine(FirstLine(s.clients[c])) == []
    ensures Consistent(be, policy, ReadLine(s, c))
  {
    hide Reachable, AllRouted, Registered, Numbered, Mapped, Opened, Answers, ParseLine, Newline, EnqueueWrite,
        ReadLine, Flowing, Framed, Assigned, ClientsOk, Cut, FirstLine;
    var cl' := EnqueueWrite(Cut(s.clients[c]), Invalid);
    var s' := s.(clients := s.clients[c := cl']);
    OneClientOk(s, c);
    BadLineRead(s, c);
    BadLineOk(s.origin, s.world.arrived, c, s.clients[c], cl');
    assert ClientOk(s', c);
    OneClientChanged(s, s', c);
    assert s'.clients.Keys == s.clients.Keys;
  }

  lemma OneClientOk(s: Sys, c: nat)
    requires ClientsOk(s) && c in s.clients
    ensures ClientOk(s, c)
  {}

  lemma GoodLineOk(s: Sys, c: nat)
    requires Link(s) && c in s.clients && ClientOk(s, c) && s.loop == Reading(c)
    requires Newline(s.clients[c].buffer) < |s.clients[c].buffer| && ParseLine(FirstLine(s.clients[c])) != []
    ensures ClientOk(ReadLine(s, c), c)
  {
    hide Newline, ParseLine, Parsed, BadLines, Invalids, ClientsOk, Unframe, RenderAll, Concat, Mapped, NewRequest,
        EnqueueWrite;
    var s', cl := ReadLine(s, c), s.clients[c];
    CutFrames(cl, Newline(cl.buffer));
    ParsedSnoc(cl.lines, FirstLine(cl));
    assert s.nextId == |s.world.arrived| + 1;
    var cl' := Cut(cl).(accepted := cl.accepted + [s.nextId]);
    assert Flowing(cl');
    FramedSame(Cut(cl), cl', true);
    hide Framed, Flowing, Assigned, Link;
    TakenMore(s.origin, s.world.arrived, Cut(cl), cl, c, s.nextId, ParseLine(FirstLine(cl)));
    assert s'.clients[c] == cl';
  }

  /** One more line of the client, one more id, one more request. */
  lemma TakenMore(origin: map<nat, nat>, arrived: seq<Req>, cut: Client, cl: Client, c: nat, id: nat, tokens: seq<int>)
    requires Assigned(origin, arrived, cl, c) && id == |arrived| + 1
    requires cut.accepted == cl.accepted && cut.items == cl.items
    requires Parsed(cut.lines) == Parsed(cl.lines) + [tokens] && BadLines(cut.lines) == BadLines(cl.lines)
    ensures Assigned(origin[id := c], arrived + [NewRequest(id, tokens, SERVER_MAX_NEW)],
                  cut.(accepted := cut.accepted + [id]), c)
  {
    hide Parsed, BadLines, Invalids;
  }

  lemma TakenElsewhere(origin: map<nat, nat>, arrived: seq<Req>, cl: Client, c: nat, id: nat, b: nat, r: Req)
    requires Assigned(origin, arrived, cl, c) && id !in origin
    ensures Assigned(origin[id := b], arrived + [r], cl, c)
  {
    hide Parsed, BadLines, Invalids;
  }

  lemma GoodLineClients(s: Sys, s': Sys, c: nat)
    requires ClientsOk(s) && Link(s) && s.loop == Reading(c)
    requires Newline(s.clients[c].buffer) < |s.clients[c].buffer| && ParseLine(FirstLine(s.clients[c])) != []
    requires s' == ReadLine(s, c)
    ensures ClientsOk(s')
  {
    hide Flowing, Framed, Assigned, ParseLine, Newline;
    var r := NewRequest(s.nextId, ParseLine(FirstLine(s.clients[c])), SERVER_MAX_NEW);
    forall d | d in s'.clients
      ensures ClientOk(s', d)
    {
      assert ClientOk(s, d);
      if d == c { GoodLineOk(s, c); }
          else { TakenElsewhere(s.origin, s.world.arrived, s.clients[d], d, s.nextId, c, r); }
    }
  }

  lemma GoodLineRegistered(s: Sys, s': Sys, c: nat)
    requires Registered(s) && Link(s) && s.loop == Reading(c)
    requires Newline(s.clients[c].buffer) < |s.clients[c].buffer| && ParseLine(FirstLine(s.clients[c])) != []
    requires s' == ReadLine(s, c)
    ensures Registered(s')
  {
    hide ParseLine, Newline;
    forall id | id in s'.origin && s'.origin[id] in s'.clients
      ensures id in s'.clients[s'.origin[id]].accepted
    {
      var ids := s.clients[c].accepted;
      if id == s.nextId {
        assert (ids + [id])[|ids|] == id;
      } else {
        assert id in s.clients[s.origin[id]].accepted;
      }
    }
  }

  lemma GoodLineRouted(s: Sys, s': Sys, c: nat)
    requires AllRouted(s) && Link(s) && s.loop == Reading(c)
    requires Newline(s.clients[c].buffer) < |s.clients[c].buffer| && ParseLine(FirstLine(s.clients[c])) != []
    requires s' == ReadLine(s, c)
    requires Project(s.world.taken, s.nextId) == []
    ensures AllRouted(s')
  {
    hide ParseLine, Newline, Answers, Project;
    forall d, id: nat | d in s'.clients
      ensures Routed(s'.origin, s'.world.taken, s'.clients[d].items, d, id)
    {
      assert Routed(s.origin, s.world.taken, s.clients[d].items, d, id);
    }
  }

  /** The client as on_read leaves it after cutting off its first line. */
  function Cut(cl: Client): Client {
    var p := Newline(cl.buffer);
    if p < |cl.buffer| then cl.(buffer := cl.buffer[p + 1..], lines := cl.lines + [cl.buffer[..p]]) else cl
  }

  function FirstLine(cl: Client): string { cl.buffer[..Newline(cl.buffer)] }

  lemma NotYetAnswered(be: Backend, m: Model, policy: Policy, s: Sys)
    requires Reachable(be, policy, s.world) && Pointwise(be, m) && Link(s)
    ensures Project(s.world.taken, s.nextId) == [] && !Ended(s.world.taken, s.nextId)
  {
    hide Queued, Conserved, Unshared, InBalance, Pointwise, Reachable;
    var w := s.world;
    ReachableAccounted(be, m, policy, w);
    forall k | 0 <= k < |w.taken|
      ensures w.taken[k].id != s.nextId
    {
      assert w.log[k] == w.taken[k];
      assert Arrived(w.arrived, w.log[k].id);
    }
    ProjectAbsent(w.taken, s.nextId);
  }

  lemma GoodLineLink(s: Sys, s': Sys, c: nat)
    requires Link(s) && Open(s) && s.loop == Reading(c) && !Ended(s.world.taken, s.nextId)
    requires Newline(s.clients[c].buffer) < |s.clients[c].buffer| && ParseLine(FirstLine(s.clients[c])) != []
    requires s' == ReadLine(s, c)
    ensures Link(s') && Open(s')
  {
    hide ParseLine, Newline, Ended;
    assert s'.clients.Keys == s.clients.Keys;
  }

  lemma GoodLinePush(be: Backend, policy: Policy, s: Sys, c: nat)
    requires Reachable(be, policy, s.world) && Link(s) && s.loop == Reading(c)
    requires Newline(s.clients[c].buffer) < |s.clients[c].buffer| && ParseLine(FirstLine(s.clients[c])) != []
    ensures Reachable(be, policy, ReadLine(s, c).world)
  {
    hide ParseLine, Newline, Reachable;
    var r := NewRequest(s.nextId, ParseLine(FirstLine(s.clients[c])), SERVER_MAX_NEW);
    assert Fresh(s.world, r);
    ReachableNext(be, policy, s.world, Push(r));
    assert After(be, s.world, Push(r)) == ReadLine(s, c).world;
  }

  lemma GoodLineKeeps(be: Backend, m: Model, policy: Policy, s: Sys, c: nat)
    requires Consistent(be, policy, s) && Pointwise(be, m) && s.loop == Reading(c)
    requires Newline(s.clients[c].buffer) < |s.clients[c].buffer| && ParseLine(FirstLine(s.clients[c])) != []
    ensures Consistent(be, policy, ReadLine(s, c))
  {
    var s' := ReadLine(s, c);
    hide Reachable, ClientsOk, AllRouted, Registered, Link, Open, Pointwise, ParseLine, Newline, Ended;
    NotYetAnswered(be, m, policy, s);
    GoodLineClients(s, s', c);
    GoodLineRegistered(s, s', c);
    GoodLineRouted(s, s', c);
    GoodLineLink(s, s', c);
    GoodLinePush(be, policy, s, c);
  }

  lemma ReadLineKeeps(be: Backend, m: Model, policy: Policy, s: Sys, c: nat)
    requires Consistent(be, policy, s) && Pointwise(be, m) && s.loop == Reading(c)
    ensures c in s.clients && Consistent(be, policy, ReadLine(s, c))
  {
    hide Reachable, ClientsOk, AllRouted, Pointwise, Open, Awake, ParseLine, Newline;
    var cl := s.clients[c];
    if Newline(cl.buffer) == |cl.buffer| { DoneReadingKeeps(be, policy, s, c); }
    else if ParseLine(FirstLine(cl)) == [] { BadLineKeeps(be, policy, s, c); }
    else { GoodLineKeeps(be, m, policy, s, c); }
  }

  // ---- dispatch ----

  lemma EndedSnoc(log: seq<Resp>, r: Resp, id: nat)
    ensures Ended(log + [r], id) <==> Ended(log, id) || (r.id == id && r.finished)
  {
    if Ended(log, id) {
      var k :| 0 <= k < |log| && log[k].id == id && log[k].finished;
      assert (log + [r])[k] == log[k];
    }
    assert (log + [r])[|log|] == r;
  }

  /** The head response goes to its client. */
  ghost predicate Dispatches(s: Sys, s': Sys) {
    && Link(s) && s.loop == Dispatching
    && s.world.responses != [] && s.world.responses[0].id in s.reqToClient && s' == DispatchOne(s)
  }

  lemma DispatchKeeps(be: Backend, m: Model, policy: Policy, s: Sys)
    requires Consistent(be, policy, s) && Pointwise(be, m) && s.loop == Dispatching
    ensures Consistent(be, policy, DispatchOne(s))
  {
    var s' := DispatchOne(s);
    hide Reachable, ClientsOk, AllRouted, Registered, Opened, Numbered, Mapped, Pointwise;
    if s.world.responses == [] {
      NoClientChanged(s, s');
    } else {
      HeadIsOpen(be, m, policy, s);
      ReachableNext(be, policy, s.world, Take);
      DispatchClients(s, s');
      DispatchRouted(s, s');
      DispatchOpen(s, s');
      assert After(be, s.world, Take) == s'.world;
    }
  }

  lemma DispatchOpen(s: Sys, s': Sys)
    requires Dispatches(s, s') && Open(s)
    ensures Open(s') && Link(s') && Awake(s')
  {
    var r := s.world.responses[0];
    hide Ended, Numbered;
    forall id | id in s'.origin
      ensures id in s'.reqToClient <==> !Ended(s'.world.taken, id)
    {
      EndedSnoc(s.world.taken, r, id);
    }
    assert s'.clients.Keys == s.clients.Keys;
  }

  lemma DispatchClients(s: Sys, s': Sys)
    requires Dispatches(s, s') && ClientsOk(s) && Registered(s)
    ensures ClientsOk(s') && Registered(s')
  {
    var r := s.world.responses[0];
    var c := s.reqToClient[r.id];
    assert ClientOk(s, c);
    DispatchOk(s, s', c);
    hide ClientOk, ClientsOk, Numbered, Render, EnqueueWrite;
    OthersOk(s, s', c);
    DispatchRegistered(s, s', c);
  }

  lemma DispatchOk(s: Sys, s': Sys, c: nat)
    requires Dispatches(s, s') && c == s.reqToClient[s.world.responses[0].id] && c in s.clients && ClientOk(s, c)
    ensures c in s'.clients && ClientOk(s', c)
  {
    var r, cl := s.world.responses[0], s.clients[c];
    EnqueueFlows(cl, Answer(r));
    RenderSnoc(cl.items, Answer(r));
    EnqueueKeeps(cl, Answer(r));
    FramedSame(cl, EnqueueWrite(cl, Answer(r)), false);
    TakenAnswer(s.origin, s.world.arrived, cl, EnqueueWrite(cl, Answer(r)), c);
    hide Flowing, Framed, Assigned, EnqueueWrite, Numbered, Mapped;
  }

  lemma TakenAnswer(origin: map<nat, nat>, arrived: seq<Req>, cl: Client, cl': Client, c: nat)
    requires Assigned(origin, arrived, cl, c) && cl'.accepted == cl.accepted && cl'.lines == cl.lines
    requires Invalids(cl'.items) == Invalids(cl.items)
    ensures Assigned(origin, arrived, cl', c)
  {}

  lemma DispatchRegistered(s: Sys, s': Sys, c: nat)
    requires Dispatches(s, s') && Registered(s) && c == s.reqToClient[s.world.responses[0].id] && c in s.clients
    ensures Registered(s')
  {
    EnqueueKeeps(s.clients[c], Answer(s.world.responses[0]));
    hide EnqueueWrite, Numbered;
  }

  lemma DispatchRouted(s: Sys, s': Sys)
    requires Dispatches(s, s') && AllRouted(s)
    ensures AllRouted(s')
  {
    var r := s.world.responses[0];
    var c := s.reqToClient[r.id];
    RenderSnoc(s.clients[c].items, Answer(r));
    hide Answers, Project, RenderAll, Numbered, Render;
    forall d, id: nat | d in s'.clients
      ensures Routed(s'.origin, s'.world.taken, s'.clients[d].items, d, id)
    {
      assert Routed(s.origin, s.world.taken, s.clients[d].items, d, id);
      ProjectSnoc(s.world.taken, r, id);
      ProjectSnoc(Answers(s.clients[c].items), r, id);
      assert Project(s.world.taken, id) + [] == Project(s.world.taken, id);
    }
  }

  lemma ConsistentStep(be: Backend, m: Model, policy: Policy, s: Sys, o: Occurrence)
    requires Consistent(be, policy, s) && Pointwise(be, m) && Possible(s, o)
    ensures Consistent(be, policy, Next(be, s, o))
  {
    hide Reachable, Open, Awake, AllRouted, ClientsOk, Registered, Pointwise, Work, ReadLine, DispatchOne;
    match o {
      case SchedulerTurn => SchedulerTurnKeeps(be, policy, s);
      case LoopTurn =>
        if s.loop == Dispatching { DispatchKeeps(be, m, policy, s); }
            else { ReadLineKeeps(be, m, policy, s, s.loop.client); }
      case WakeUp => WakeUpKeeps(be, policy, s);
      case Connect(c) => ConnectKeeps(be, policy, s, c);
      case Bytes(c, data) => BytesKeeps(be, policy, s, c, data);
      case Written(c) => WrittenKeeps(be, policy, s, c);
      case _ => QuietKeeps(be, policy, s, o);
    }
  }

  lemma BootConsistent(be: Backend, policy: Policy)
    ensures Consistent(be, policy, BootServer(policy))
  {
    assert Worker.Run(be, Boot(policy), [], Boot(policy));
  }

  lemma {:induction false} HistoryConsistent(be: Backend, m: Model, policy: Policy, s: Sys, os: seq<Occurrence>,
      s': Sys)
    requires Consistent(be, policy, s) && Pointwise(be, m) && History(be, s, os, s')
    ensures Consistent(be, policy, s')
    decreases |os|
  {
    hide Consistent, Pointwise, Possible, Next;
    if os != [] {
      ConsistentStep(be, m, policy, s, os[0]);
      HistoryConsistent(be, m, policy, Next(be, s, os[0]), os[1..], s');
    }
  }

  ghost predicate Attainable(be: Backend, policy: Policy, s: Sys) {
    exists os :: History(be, BootServer(policy), os, s)
  }

  lemma AttainableConsistent(be: Backend, m: Model, policy: Policy, s: Sys)
    requires Attainable(be, policy, s) && Pointwise(be, m)
    ensures Consistent(be, policy, s)
  {
    hide Consistent, Pointwise;
    var os :| History(be, BootServer(policy), os, s);
    BootConsistent(be, policy);
    HistoryConsistent(be, m, policy, BootServer(policy), os, s);
  }

  // ---- the guarantees ----

  /** No event loses the wake-up, whatever backend and allocator there are. */
  lemma AwakeStep(be: Backend, s: Sys, o: Occurrence)
    requires Streams(s.world) && Awake(s) && Possible(s, o)
    ensures Streams(Next(be, s, o).world) && Awake(Next(be, s, o))
  {
    match o {
      case SchedulerTurn =>
        StreamsTurn(be, s.world);
        AwakeTurn(be, s);
      case LoopTurn =>
        if s.loop == Dispatching { AwakeDispatch(s); } else { AwakeRead(s); }
      case _ =>
    }
  }

  lemma AwakeDispatch(s: Sys)
    requires Streams(s.world) && s.loop == Dispatching
    ensures Streams(DispatchOne(s).world) && Awake(DispatchOne(s))
  {
    hide DispatchOne;
    DispatchWorld(s);
    if s.world.responses != [] {
      assert s.world.responses == [s.world.responses[0]] + s.world.responses[1..];
    }
  }

  lemma DispatchWorld(s: Sys)
    ensures s.world.responses == [] ==> DispatchOne(s) == s.(loop := Resting)
    ensures s.world.responses != [] ==> DispatchOne(s).world == Pop(s.world) && DispatchOne(s).loop == s.loop
  {
    hide EnqueueWrite;
  }

  lemma AwakeRead(s: Sys)
    requires Streams(s.world) && Awake(s) && s.loop.Reading?
    ensures s.loop.client in s.clients ==>
        Streams(ReadLine(s, s.loop.client).world) && Awake(ReadLine(s, s.loop.client))
  {
    hide EnqueueWrite, ParseLine, Newline, NewRequest;
  }

  lemma {:induction false} HistoryAwake(be: Backend, s: Sys, os: seq<Occurrence>, s': Sys)
    requires Streams(s.world) && Awake(s) && History(be, s, os, s')
    ensures Awake(s')
    decreases |os|
  {
    hide Next, Streams, Awake, Possible;
    if os != [] {
      AwakeStep(be, s, os[0]);
      HistoryAwake(be, Next(be, s, os[0]), os[1..], s');
    }
  }

  /** Signals coalesce, but none is lost: while a response is queued a signal is pending, or the drain loop is
      running, or the scheduler is inside a batch function that will still signal. */
  lemma NoLostWakeUp(be: Backend, policy: Policy, s: Sys)
    requires Attainable(be, policy, s) && s.world.responses != []
    ensures s.world.signalled || s.loop == Dispatching || s.world.owesSignal
  {
    hide Next, Possible;
    var os :| History(be, BootServer(policy), os, s);
    HistoryAwake(be, BootServer(policy), os, s);
  }

  /** The id leads to an open connection that submitted it. */
  ghost predicate OnRecord(s: Sys, id: nat) {
    id in s.reqToClient && s.reqToClient[id] in s.clients && id in s.clients[s.reqToClient[id]].accepted
  }

  lemma StillOnRecord(be: Backend, policy: Policy, s: Sys, id: nat)
    requires Consistent(be, policy, s) && 1 <= id <= |s.world.arrived| && !Ended(s.world.taken, id)
    ensures OnRecord(s, id)
  {
    hide Reachable, AllRouted, ClientsOk;
  }

  lemma {:induction false} MemberProjects(log: seq<Resp>, id: nat, k: nat)
    requires k < |log| && log[k].id == id
    ensures Project(log, id) != []
  {
    if k < |log| - 1 { MemberProjects(log[..|log| - 1], id, k); }
  }

  /** A response that has been produced and not popped. */
  lemma ResponseNotEnded(be: Backend, m: Model, policy: Policy, s: Sys, k: nat)
    requires Reachable(be, policy, s.world) && Pointwise(be, m) && Link(s) && k < |s.world.responses + s.world.outbox|
    ensures var id := (s.world.responses + s.world.outbox)[k].id;
            1 <= id <= |s.world.arrived| && !Ended(s.world.taken, id)
  {
    hide Queued, Conserved, Unshared, InBalance, Pointwise, Reachable, Mapped;
    var w := s.world;
    var rest := w.responses + w.outbox;
    ReachableAccounted(be, m, policy, w);
    ReachableSound(be, policy, w);
    assert w.log == w.taken + rest && w.log[|w.taken| + k] == rest[k];
    assert Arrived(w.arrived, rest[k].id);
    var i :| 0 <= i < |w.arrived| && w.arrived[i].id == rest[k].id;
    MemberProjects(rest, rest[k].id, k);
    if Ended(w.taken, rest[k].id) {
      var j :| 0 <= j < |w.taken| && w.taken[j].id == rest[k].id && w.taken[j].finished;
      EndedIsLast(be, m, policy, w, i, j);
    }
  }

  /** A request that is not finished has not had its last response popped. */
  lemma UnfinishedNotEnded(be: Backend, m: Model, policy: Policy, s: Sys, i: nat)
    requires Reachable(be, policy, s.world) && Pointwise(be, m) && Link(s)
    requires i < |Everything(s.world)| && Everything(s.world)[i].state != Finished
    ensures var id := Everything(s.world)[i].id; 1 <= id <= |s.world.arrived| && !Ended(s.world.taken, id)
  {
    hide Queued, Conserved, Unshared, Pointwise, Reachable, Mapped, Rest, Full;
    var w := s.world;
    ReachableSound(be, policy, w);
    var j := ArrivalOf(w, i);
    var id := w.arrived[j].id;
    assert id == j + 1 && Everything(w)[i].id == id;
    var x := ExactlyOnePlace(be, policy, w, j);
    var k := SentPlusRestIsSequential(be, m, policy, w, j);
    assert Everything(w)[k].id == id;
    assert k == x == i;
    var c := Everything(w)[i].ToCore();
    RestFlags(m, c);
    FullFlags(m, w.arrived[j].ToCore());
    ProjectConcat(w.taken, w.responses + w.outbox, id);
    assert w.log == w.taken + (w.responses + w.outbox);
    assert forall p :: 0 <= p < |Project(w.taken, id)| ==> Full(m, w.arrived[j].ToCore())[p] == Project(w.taken, id)[p];
    if Ended(w.taken, id) {
      var e :| 0 <= e < |w.taken| && w.taken[e].id == id && w.taken[e].finished;
      var p := EndedProject(w.taken, id, e);
    }
  }

  /** At every moment the id of every response still to be delivered, and of every request still to be
      finished, is on record, so the branch that skips unknown ids is never taken. */
  lemma NoResponseDropped(be: Backend, m: Model, policy: Policy, s: Sys)
    requires Attainable(be, policy, s) && Pointwise(be, m)
    ensures forall k :: 0 <= k < |s.world.responses + s.world.outbox| ==>
        OnRecord(s, (s.world.responses + s.world.outbox)[k].id)
    ensures forall i :: 0 <= i < |Everything(s.world)| && Everything(s.world)[i].state != Finished ==>
              OnRecord(s, Everything(s.world)[i].id)
  {
    hide Reachable, Pointwise, Attainable, Link, Open, Awake, AllRouted, ClientsOk, Registered, OnRecord, Ended;
    AttainableConsistent(be, m, policy, s);
    forall k | 0 <= k < |s.world.responses + s.world.outbox|
      ensures OnRecord(s, (s.world.responses + s.world.outbox)[k].id)
    {
      ResponseNotEnded(be, m, policy, s, k);
      StillOnRecord(be, policy, s, (s.world.responses + s.world.outbox)[k].id);
    }
    forall i | 0 <= i < |Everything(s.world)| && Everything(s.world)[i].state != Finished
      ensures OnRecord(s, Everything(s.world)[i].id)
    {
      UnfinishedNotEnded(be, m, policy, s, i);
      StillOnRecord(be, policy, s, Everything(s.world)[i].id);
    }
  }

  /** An id is in the table from the moment its request is submitted until its last response has been dispatched, and
      never otherwise; it leads to the client that was given it. */
  lemma TableIsExact(be: Backend, m: Model, policy: Policy, s: Sys, id: nat)
    requires Attainable(be, policy, s) && Pointwise(be, m)
    ensures id in s.reqToClient <==>
              1 <= id <= |s.world.arrived|
              && !exists k :: 0 <= k < |s.world.taken| && s.world.taken[k].id == id && s.world.taken[k].finished
    ensures id in s.reqToClient ==>
              s.reqToClient[id] in s.clients && id in s.clients[s.reqToClient[id]].accepted
  {
    hide Reachable, Pointwise, Attainable, AllRouted, ClientsOk;
    AttainableConsistent(be, m, policy, s);
  }

  /** What a client has been sent or will be sent, and what of its stream has become requests. */
  lemma ClientStream(be: Backend, m: Model, policy: Policy, s: Sys, c: nat)
    requires Attainable(be, policy, s) && Pointwise(be, m) && c in s.clients
    ensures var cl := s.clients[c];
            && cl.sent + cl.flight + Concat(cl.writes) == RenderAll(cl.items)
            && cl.received == Unframe(cl.lines) + cl.buffer
            && (forall i :: 0 <= i < |cl.lines| ==> '\n' !in cl.lines[i])
            && (s.loop != Reading(c) ==> '\n' !in cl.buffer)
            && Invalids(cl.items) == BadLines(cl.lines)
            && |cl.accepted| == |Parsed(cl.lines)|
            && forall j :: 0 <= j < |cl.accepted| ==>
                 && 1 <= cl.accepted[j] <= |s.world.arrived|
                 && s.world.arrived[cl.accepted[j] - 1].tokens == Parsed(cl.lines)[j]
  {
    hide Reachable, AllRouted, Pointwise, Attainable, Link, Open, Parsed, BadLines, Invalids, RenderAll, Unframe,
        Concat;
    AttainableConsistent(be, m, policy, s);
    assert ClientOk(s, c);
  }

  /** The token lists of the requests client c has been given ids for. */
  function Requests(s: Sys, c: nat): seq<seq<int>>
    requires c in s.clients
  {
    var ids := s.clients[c].accepted;
    seq(|ids|, j requires 0 <= j < |ids| =>
      if 1 <= ids[j] <= |s.world.arrived| then s.world.arrived[ids[j] - 1].tokens else [])
  }

  /** Between two reads the bytes received so far decide which lines have been taken, which requests
      submitted and how many lines complained about, whatever else has happened in between. */
  lemma ReceivedDecides(be: Backend, m: Model, policy: Policy, s: Sys, c: nat)
    requires Attainable(be, policy, s) && Pointwise(be, m) && c in s.clients && s.loop != Reading(c)
    ensures var cl := s.clients[c];
            && cl.lines == Lines(cl.received) && cl.buffer == Leftover(cl.received)
            && Requests(s, c) == Parsed(Lines(cl.received))
            && Invalids(cl.items) == BadLines(Lines(cl.received))
  {
    hide Attainable, Pointwise, Parsed, BadLines, Invalids, RenderAll, Unframe, Concat, Lines, Leftover;
    var cl := s.clients[c];
    ClientStream(be, m, policy, s, c);
    OnlyTheseLines(cl.lines, cl.buffer);
    NoNewline(cl.buffer);
    assert cl.lines + [] == cl.lines;
  }

  /** Two clients that have sent the same bytes, in pieces and at times as different as you like, to two servers
      whose backends and allocators may differ, have submitted the same requests and got the same complaints. */
  lemma SameBytesSameRequests(be: Backend, m: Model, policy: Policy, s: Sys, c: nat,
                              be': Backend, m': Model, policy': Policy, s': Sys, c': nat)
    requires Attainable(be, policy, s) && Pointwise(be, m) && c in s.clients && s.loop != Reading(c)
    requires Attainable(be', policy', s') && Pointwise(be', m') && c' in s'.clients && s'.loop != Reading(c')
    requires s.clients[c].received == s'.clients[c'].received
    ensures s.clients[c].lines == s'.clients[c'].lines && s.clients[c].buffer == s'.clients[c'].buffer
    ensures Requests(s, c) == Requests(s', c')
    ensures Invalids(s.clients[c].items) == Invalids(s'.clients[c'].items)
  {
    hide *;
    ReceivedDecides(be, m, policy, s, c);
    ReceivedDecides(be', m', policy', s', c');
  }

  /** At every moment the answers enqueued for a request of client c are a prefix of its sequential output. */
  lemma AnswersArePrefix(be: Backend, m: Model, policy: Policy, s: Sys, c: nat, j: nat)
    requires Attainable(be, policy, s) && Pointwise(be, m)
    requires c in s.clients && j < |s.clients[c].accepted|
    ensures var id := s.clients[c].accepted[j];
            1 <= id <= |s.world.arrived|
            && Project(Answers(s.clients[c].items), id) <= Full(m, s.world.arrived[id - 1].ToCore())
  {
    hide *;
    var id := s.clients[c].accepted[j];
    AttainableConsistent(be, m, policy, s);
    ConsistentParts(be, policy, s);
    AnswersArePopped(s, c, j);
    PushedIsPrefix(be, m, policy, s.world, id - 1);
    ProjectConcat(s.world.taken, s.world.responses, id);
  }

  lemma ConsistentParts(be: Backend, policy: Policy, s: Sys)
    requires Consistent(be, policy, s)
    ensures Reachable(be, policy, s.world) && Link(s) && Open(s) && Awake(s) && AllRouted(s) && ClientsOk(s)
        && Registered(s)
  {}

  lemma AnswersArePopped(s: Sys, c: nat, j: nat)
    requires ClientsOk(s) && AllRouted(s) && Link(s) && c in s.clients && j < |s.clients[c].accepted|
    ensures var id := s.clients[c].accepted[j];
            && 1 <= id <= |s.world.arrived| && s.world.arrived[id - 1].id == id
            && Project(Answers(s.clients[c].items), id) == Project(s.world.taken, id)
  {
    hide Flowing, Framed, Project, Answers, Parsed, Invalids, BadLines;
    assert ClientOk(s, c);
    assert Routed(s.origin, s.world.taken, s.clients[c].items, c, s.clients[c].accepted[j]);
  }

  /** Nothing inside the system can happen any more, and the worker has not been stopped. */
  ghost predicate Settled(s: Sys) {
    && s.world.pc.Parked? && !CanWork(s.world)
    && s.loop == Resting && !s.world.signalled
    && forall c :: c in s.clients ==> !s.clients[c].writing
  }

  lemma SettledIsEmpty(be: Backend, m: Model, policy: Policy, s: Sys)
    requires Attainable(be, policy, s) && Pointwise(be, m) && Settled(s)
    ensures s.world.responses == [] && s.world.outbox == [] && s.world.log == s.world.taken
    ensures Everything(s.world) == s.world.st.finish
    ensures forall i :: 0 <= i < |s.world.st.finish| ==> s.world.st.finish[i].state == Finished
    ensures Consistent(be, policy, s)
  {
    hide Reachable, AllRouted, ClientsOk, Pointwise, Attainable, Link, Open, Queued, Conserved, Unshared;
    AttainableConsistent(be, m, policy, s);
    ReachableSound(be, policy, s.world);
    IdleMeansFinished(s.world);
  }

  /** When the system has come to rest every client has received, byte for byte, the rendering of its
      answers, and these contain the complete sequential output of each of its requests. */
  lemma EverythingDelivered(be: Backend, m: Model, policy: Policy, s: Sys, c: nat, j: nat)
    requires Attainable(be, policy, s) && Pointwise(be, m) && Settled(s)
    requires c in s.clients && j < |s.clients[c].accepted|
    ensures s.clients[c].sent == RenderAll(s.clients[c].items)
    ensures var id := s.clients[c].accepted[j];
            1 <= id <= |s.world.arrived|
            && Project(Answers(s.clients[c].items), id) == Full(m, s.world.arrived[id - 1].ToCore())
  {
    hide Consistent, Reachable, Pointwise, Attainable, Full, Answers, Project, RenderAll, Settled, ClientsOk, AllRouted,
         Link;
    SettledIsEmpty(be, m, policy, s);
    ConsistentParts(be, policy, s);
    SettledSent(s, c);
    AnswersArePopped(s, c, j);
    var k := FinishedMeansComplete(be, m, policy, s.world, s.clients[c].accepted[j] - 1);
    assert Everything(s.world)[k].state == Finished;
  }

  lemma SettledSent(s: Sys, c: nat)
    requires ClientsOk(s) && Settled(s) && c in s.clients
    ensures s.clients[c].sent == RenderAll(s.clients[c].items)
  {
    hide Framed, Assigned, RenderAll;
    var cl := s.clients[c];
    assert ClientOk(s, c);
    assert Concat([]) == "" && cl.sent + "" + "" == cl.sent;
  }

  /** With the mock backend, whatever the allocator refused: eight tokens each, EOS last. */
  lemma MockDelivery(policy: Policy, s: Sys, c: nat, j: nat)
    requires Attainable(MOCK_BACKEND, policy, s) && Settled(s)
    requires c in s.clients && j < |s.clients[c].accepted|
    ensures s.clients[c].sent == RenderAll(s.clients[c].items)
    ensures var id := s.clients[c].accepted[j];
            Project(Answers(s.clients[c].items), id) ==
            [Resp(id, 1000, false), Resp(id, 1001, false), Resp(id, 1002, false), Resp(id, 1003, false),
             Resp(id, 1004, false), Resp(id, 1005, false), Resp(id, 1006, false), Resp(id, 50256, true)]
  {
    hide Attainable, Answers, Project, RenderAll, Full;
    EverythingDelivered(MOCK_BACKEND, MOCK_MODEL, policy, s, c, j);
    var id := s.clients[c].accepted[j];
    ArrivalShape(policy, s, id - 1);
    MockFull(s.world.arrived[id - 1].ToCore());
  }

  lemma ArrivalShape(policy: Policy, s: Sys, k: nat)
    requires Attainable(MOCK_BACKEND, policy, s) && k < |s.world.arrived|
    ensures s.world.arrived[k] == NewRequest(k + 1, s.world.arrived[k].tokens, SERVER_MAX_NEW)
  {
    hide Attainable, Reachable, AllRouted, ClientsOk, Mapped, Opened;
    AttainableConsistent(MOCK_BACKEND, MOCK_MODEL, policy, s);
  }
}

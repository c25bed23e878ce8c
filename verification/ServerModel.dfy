/** The event-loop thread, composed with the scheduler thread: framing, submission, the wake-up
    signal, dispatch of responses to clients and the one-write-in-flight queues. */
module ServerModel {
  import opened Types
  import opened Allocation
  import opened Backends
  import opened Worker
  import opened Text
  import opened Framing

  const SERVER_MAX_NEW: int := 8

  /** What the server writes to a client. */
  datatype Item = Invalid | Answer(resp: Resp)

  function Render(i: Item): string {
    match i
    case Invalid => "invalid request\n"
    case Answer(r) => ToString(r.token) + (if r.finished then " [DONE]" else "") + "\n"
  }

  function RenderAll(items: seq<Item>): string {
    if items == [] then "" else RenderAll(items[..|items| - 1]) + Render(items[|items| - 1])
  }

  function Concat(parts: seq<string>): string {
    if parts == [] then "" else parts[0] + Concat(parts[1..])
  }

  lemma {:induction false} ConcatSnoc(parts: seq<string>, p: string)
    ensures Concat(parts + [p]) == Concat(parts) + p
  {
    if parts == [] {
      assert parts + [p] == [p] && [p][1..] == [] && Concat([p]) == p + Concat([]);
    } else {
      assert (parts + [p])[1..] == parts[1..] + [p];
      ConcatSnoc(parts[1..], p);
      assert parts[0] + (Concat(parts[1..]) + p) == parts[0] + Concat(parts[1..]) + p;
    }
  }

  datatype Client = Client(
    buffer: string, writes: seq<string>, writing: bool, flight: string,
    received: string,      // history: every byte read
    lines: seq<string>,    // history: every line extracted
    accepted: seq<nat>,    // history: the ids its lines were given
    items: seq<Item>,      // history: everything enqueued for it
    sent: string)          // history: every byte whose write has completed

  function NewClient(): Client { Client("", [], false, "", "", [], [], [], "") }

  function StartWrite(c: Client): Client {
    if c.writing || c.writes == [] then c
    else c.(flight := c.writes[0], writes := c.writes[1..], writing := true)
  }

  function EnqueueWrite(c: Client, item: Item): Client {
    StartWrite(c.(writes := c.writes + [Render(item)], items := c.items + [item]))
  }

  function OnWrite(c: Client): Client {
    StartWrite(c.(sent := c.sent + c.flight, flight := "", writing := false))
  }

  datatype LoopPc = Resting | Reading(client: nat) | Dispatching

  datatype Sys = Sys(
    world: World, loop: LoopPc, nextId: nat,
    clients: map<nat, Client>,
    reqToClient: map<nat, nat>,
    origin: map<nat, nat>)   // history: the client that submitted each id

  function BootServer(policy: Policy): Sys { Sys(Boot(policy), Resting, 1, map[], map[], map[]) }

  datatype Occurrence =
    | SchedulerTurn | LoopTurn | WakeUp                 // the two threads
    | Connect(c: nat) | Bytes(c: nat, data: string) | Written(c: nat)   // libuv callbacks
    | Shutdown | StopWorker                              // ServerContext::stop

  predicate Possible(s: Sys, o: Occurrence) {
    match o
    case SchedulerTurn => CanWork(s.world)
    case LoopTurn => s.loop != Resting
    case WakeUp => s.loop == Resting && s.world.signalled
    case Connect(c) => s.loop == Resting && c !in s.clients
    case Bytes(c, data) => s.loop == Resting && c in s.clients && data != ""
    case Written(c) => s.loop == Resting && c in s.clients && s.clients[c].writing
    case _ => true
  }

  function Submit(w: World, r: Req): World { w.(inbox := w.inbox + [r], arrived := w.arrived + [r]) }

  function Pop(w: World): World
    requires w.responses != []
  {
    w.(responses := w.responses[1..], taken := w.taken + [w.responses[0]])
  }

  /** What libuv has read for a client is put behind what it has left over. */
  function WithBytes(s: Sys, c: nat, data: string): Sys
    requires c in s.clients
  {
    s.(clients := s.clients[c := More(s.clients[c], data)], loop := Reading(c))
  }

  function More(cl: Client, data: string): Client { cl.(buffer := cl.buffer + data, received := cl.received + data) }

  /** One round of on_read's loop. */
  function ReadLine(s: Sys, c: nat): Sys
    requires c in s.clients
  {
    var cl := s.clients[c];
    var p := Newline(cl.buffer);
    if p == |cl.buffer| then s.(loop := Resting)
    else
      var line := cl.buffer[..p];
      var cl' := cl.(buffer := cl.buffer[p + 1..], lines := cl.lines + [line]);
      var tokens := ParseLine(line);
      if tokens == [] then s.(clients := s.clients[c := EnqueueWrite(cl', Invalid)])
      else
        s.(clients := s.clients[c := cl'.(accepted := cl'.accepted + [s.nextId])],
           reqToClient := s.reqToClient[s.nextId := c],
           origin := s.origin[s.nextId := c],
           world := Submit(s.world, NewRequest(s.nextId, tokens, SERVER_MAX_NEW)),
           nextId := s.nextId + 1)
  }

  /** One round of on_response_async's loop. */
  function DispatchOne(s: Sys): Sys {
    if s.world.responses == [] then s.(loop := Resting)
    else
      var r := s.world.responses[0];
      var s' := s.(world := Pop(s.world));
      if r.id !in s.reqToClient || s.reqToClient[r.id] !in s.clients then s'
      else
        var c := s.reqToClient[r.id];
        s'.(clients := s.clients[c := EnqueueWrite(s.clients[c], Answer(r))],
            reqToClient := if r.finished then s.reqToClient - {r.id} else s.reqToClient)
  }

  function Next(be: Backend, s: Sys, o: Occurrence): Sys
    requires Possible(s, o)
  {
    match o
    case SchedulerTurn => s.(world := Work(be, s.world))
    case LoopTurn =>
      if s.loop == Dispatching then DispatchOne(s)
      else if s.loop.client in s.clients then ReadLine(s, s.loop.client) else s.(loop := Resting)
    case WakeUp => s.(world := s.world.(signalled := false), loop := Dispatching)
    case Connect(c) => s.(clients := s.clients[c := NewClient()])
    case Bytes(c, data) => WithBytes(s, c, data)
    case Written(c) => s.(clients := s.clients[c := OnWrite(s.clients[c])])
    case Shutdown => s.(world := s.world.(closed := true))
    case StopWorker => s.(world := s.world.(st := s.world.st.(running := false)))
  }

  ghost predicate History(be: Backend, s: Sys, occurrences: seq<Occurrence>, s': Sys)
    decreases |occurrences|
  {
    if occurrences == [] then s' == s
    else Possible(s, occurrences[0]) && History(be, Next(be, s, occurrences[0]), occurrences[1..], s')
  }

  // ---- whole callbacks ----

  /** All rounds of on_read's loop for one connection. */
  function ReadAll(s: Sys, c: nat): Sys
    requires c in s.clients
    decreases |s.clients[c].buffer|
  {
    if Newline(s.clients[c].buffer) == |s.clients[c].buffer| then s.(loop := Resting) else ReadAll(ReadLine(s, c), c)
  }

  /** The callback on_read. */
  function ReadOnce(s: Sys, c: nat, data: string): Sys
    requires c in s.clients
  {
    ReadAll(WithBytes(s, c, data), c)
  }

  /** All rounds of on_response_async's loop. */
  function DispatchAll(s: Sys): Sys
    decreases |s.world.responses|
  {
    if s.world.responses == [] then s.(loop := Resting) else DispatchAll(DispatchOne(s))
  }

  lemma {:induction false} ReadStep(s: Sys, c: nat)
    requires c in s.clients && Newline(s.clients[c].buffer) < |s.clients[c].buffer|
    ensures ReadAll(s, c) == ReadAll(ReadLine(s, c), c)
    ensures |ReadLine(s, c).clients[c].buffer| < |s.clients[c].buffer|
  {
    hide Newline, ParseLine, NewRequest, Render;
  }

  lemma ReadDone(s: Sys, c: nat)
    requires c in s.clients && Newline(s.clients[c].buffer) == |s.clients[c].buffer|
    ensures ReadAll(s, c) == s.(loop := Resting)
  {}

  lemma DispatchShrinks(s: Sys)
    requires s.world.responses != []
    ensures |DispatchOne(s).world.responses| < |s.world.responses|
  {}

  lemma ReadCuts(s: Sys, c: nat)
    requires c in s.clients && Newline(s.clients[c].buffer) < |s.clients[c].buffer|
    ensures var cl := s.clients[c]; var s' := ReadLine(s, c); var p := Newline(cl.buffer);
            && c in s'.clients && s'.loop == s.loop
            && s'.clients[c].buffer == cl.buffer[p + 1..] && s'.clients[c].lines == cl.lines + [cl.buffer[..p]]
  {
    hide Newline, ParseLine, NewRequest, Render;
  }

  lemma Regrouped(a: seq<string>, b: seq<string>, c: seq<string>)
    ensures a + (b + c) == a + b + c
  {}

  /** The loop takes the lines of the buffer, in order, and leaves what is behind the last newline. */
  lemma {:induction false} ReadAllFrames(s: Sys, c: nat)
    requires c in s.clients
    ensures var cl := s.clients[c]; var s' := ReadAll(s, c);
            c in s'.clients && s'.clients[c].lines == cl.lines + Lines(cl.buffer)
            && s'.clients[c].buffer == Leftover(cl.buffer)
    decreases |s.clients[c].buffer|
  {
    var cl := s.clients[c];
    if Newline(cl.buffer) < |cl.buffer| {
      hide ReadLine, ReadAll, Lines, Leftover, Newline;
      ReadCuts(s, c);
      ReadStep(s, c);
      ReadAllFrames(ReadLine(s, c), c);
      LinesStep(cl.buffer);
      var p := Newline(cl.buffer);
      Regrouped(cl.lines, [cl.buffer[..p]], Lines(cl.buffer[p + 1..]));
    } else {
      NoNewline(cl.buffer);
      assert cl.lines + [] == cl.lines;
    }
  }

  /** Whether more bytes come before or after a line is taken makes no difference to it. */
  lemma ReadLineThenMore(s: Sys, c: nat, data: string)
    requires c in s.clients && s.loop == Reading(c) && Newline(s.clients[c].buffer) < |s.clients[c].buffer|
    ensures c in ReadLine(s, c).clients
    ensures WithBytes(ReadLine(s, c), c, data) == ReadLine(WithBytes(s, c, data), c)
  {
    hide Newline, ParseLine, NewRequest, EnqueueWrite;
    var cl := s.clients[c];
    var p, d := Newline(cl.buffer), More(cl, data);
    MoreCut(cl.buffer, data);
    var cut := cl.(buffer := cl.buffer[p + 1..], lines := cl.lines + [cl.buffer[..p]]);
    assert d.(buffer := d.buffer[p + 1..], lines := d.lines + [d.buffer[..p]]) == More(cut, data);
    EnqueueMore(cut, Invalid, data);
    assert WithBytes(ReadLine(s, c), c, data).clients == ReadLine(WithBytes(s, c, data), c).clients;
  }

  lemma MoreCut(b: string, data: string)
    requires Newline(b) < |b|
    ensures var p := Newline(b);
            Newline(b + data) == p && (b + data)[..p] == b[..p] && (b + data)[p + 1..] == b[p + 1..] + data
  {
    hide Newline;
    NewlineConcat(b, data);
  }

  lemma EnqueueMore(cl: Client, item: Item, data: string)
    ensures More(EnqueueWrite(cl, item), data) == EnqueueWrite(More(cl, data), item)
  {}

  lemma {:induction false} ReadAllThenMore(s: Sys, c: nat, data: string)
    requires c in s.clients && s.loop == Reading(c)
    ensures c in ReadAll(s, c).clients
    ensures ReadOnce(ReadAll(s, c), c, data) == ReadOnce(s, c, data)
    decreases |s.clients[c].buffer|
  {
    hide ReadLine, ReadAll;
    var b := s.clients[c].buffer;
    if Newline(b) < |b| {
      ReadCuts(s, c);
      ReadStep(s, c);
      ReadAllThenMore(ReadLine(s, c), c, data);
      ReadLineThenMore(s, c, data);
      NewlineConcat(b, data);
      ReadStep(WithBytes(s, c, data), c);
    } else {
      ReadDone(s, c);
    }
  }

  /** One callback after the other, one for each piece. */
  function Reads(s: Sys, c: nat, pieces: seq<string>): Sys
    requires c in s.clients
    decreases |pieces|
  {
    if pieces == [] then s
    else ReadAllFrames(WithBytes(s, c, pieces[0]), c); Reads(ReadOnce(s, c, pieces[0]), c, pieces[1..])
  }

  lemma OnceTwice(s: Sys, c: nat, d: string, e: string)
    requires c in s.clients
    ensures c in ReadOnce(s, c, d).clients && ReadOnce(ReadOnce(s, c, d), c, e) == ReadOnce(s, c, d + e)
  {
    ReadAllThenMore(WithBytes(s, c, d), c, e);
    hide ReadAll, More;
    MoreTwice(s.clients[c], d, e);
    assert WithBytes(WithBytes(s, c, d), c, e).clients == WithBytes(s, c, d + e).clients;
  }

  lemma MoreTwice(cl: Client, d: string, e: string)
    ensures More(More(cl, d), e) == More(cl, d + e)
  {
    assert cl.buffer + d + e == cl.buffer + (d + e) && cl.received + d + e == cl.received + (d + e);
  }

  /** However a stream is cut into reads, it leaves the same server: the same lines and leftover, the same
      requests with the same ids, the same complaints. */
  lemma {:induction false} ChunkingIsUnobservable(s: Sys, c: nat, pieces: seq<string>)
    requires c in s.clients && s.loop == Resting && '\n' !in s.clients[c].buffer
    ensures Reads(s, c, pieces) == ReadOnce(s, c, Concat(pieces))
    decreases |pieces|
  {
    if pieces == [] {
      var cl := s.clients[c];
      assert cl.buffer + "" == cl.buffer && cl.received + "" == cl.received;
      assert WithBytes(s, c, "").clients == s.clients;
      ReadDone(WithBytes(s, c, ""), c);
    } else {
      hide ReadAll, Leftover;
      var v := ReadOnce(s, c, pieces[0]);
      ReadAllFrames(WithBytes(s, c, pieces[0]), c);
      ReadAllRests(WithBytes(s, c, pieces[0]), c);
      ChunkingIsUnobservable(v, c, pieces[1..]);
      OnceTwice(s, c, pieces[0], Concat(pieces[1..]));
    }
  }

  lemma {:induction false} ReadAllRests(s: Sys, c: nat)
    requires c in s.clients
    ensures ReadAll(s, c).loop == Resting
    decreases |s.clients[c].buffer|
  {
    if Newline(s.clients[c].buffer) < |s.clients[c].buffer| {
      hide ReadLine;
      ReadCuts(s, c);
      ReadAllRests(ReadLine(s, c), c);
    }
  }
}

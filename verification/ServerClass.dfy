/** The server as the classes it is: connections with buffers and flags, updated by callbacks. */
module ServerClass {
  import opened Types
  import opened Text
  import opened Framing
  import opened Objects
  import opened ServerModel

  class ClientConnection {
    var readBuffer: string
    var writeQueue: seq<string>
    var writing: bool
    var flight: string       // the data of the write request that libuv holds
    ghost var received: string
    ghost var lines: seq<string>
    ghost var accepted: seq<nat>
    ghost var items: seq<Item>
    ghost var sent: string

    ghost function Val(): Client
      reads this
    {
      Client(readBuffer, writeQueue, writing, flight, received, lines, accepted, items, sent)
    }

    constructor ()
      ensures Val() == NewClient()
    {
      readBuffer, writeQueue, writing, flight := "", [], false, "";
      received, lines, accepted, items, sent := "", [], [], [], "";
    }

    /** Everything that was ever queued and not dropped: written, in flight, waiting. */
    ghost function Outgoing(): string
      reads this
    {
      sent + flight + Concat(writeQueue)
    }

    /** An idle connection owes nothing. */
    ghost predicate Steady()
      reads this
    {
      !writing ==> flight == "" && writeQueue == []
    }

    method StartWrite()
      modifies this
      ensures writing <==> old(writing || writeQueue != [])
      ensures old(writing) ==> flight == old(flight) && writeQueue == old(writeQueue)
      ensures old(!writing && writeQueue != []) ==> flight == old(writeQueue[0]) && writeQueue == old(writeQueue[1..])
      ensures sent == old(sent) && (old(writing || flight == "") ==> Outgoing() == old(Outgoing()) && Steady())
      ensures Val() == ServerModel.StartWrite(old(Val()))
    {
      if writing || writeQueue == [] {
        return;
      }
      flight := writeQueue[0];
      writeQueue := writeQueue[1..];
      writing := true;
    }

    method EnqueueWrite(data: string, ghost item: Item)
      requires data == Render(item)
      modifies this
      ensures old(Steady()) ==> Steady() && Outgoing() == old(Outgoing()) + data
      ensures writing && sent == old(sent) && (old(writing) ==> flight == old(flight))
      ensures Val() == ServerModel.EnqueueWrite(old(Val()), item)
    {
      ConcatSnoc(writeQueue, data);
      Regroup(sent + flight, Concat(writeQueue), data);
      writeQueue := writeQueue + [data];
      items := items + [item];
      if !writing {
        StartWrite();
      }
    }

    /** The write in flight is complete. */
    method OnWrite()
      modifies this
      ensures Steady() && Outgoing() == old(Outgoing())
      ensures sent == old(sent + flight) && (writing <==> old(writeQueue) != [])
      ensures Val() == ServerModel.OnWrite(old(Val()))
    {
      sent := sent + flight;
      flight := "";
      writing := false;
      if writeQueue != [] {
        StartWrite();
      }
    }

    static lemma Regroup(a: string, b: string, c: string)
      ensures a + (b + c) == a + b + c
    {}

    method Append(data: string)
      modifies this
      ensures Val() == old(Val()).(buffer := old(readBuffer) + data, received := old(received) + data)
    {
      readBuffer := readBuffer + data;
      received := received + data;
    }

    /** Cuts the first line off the buffer. */
    method TakeLine() returns (line: string)
      requires Newline(readBuffer) < |readBuffer|
      modifies this
      ensures line == old(readBuffer)[..Newline(old(readBuffer))]
      ensures Val() == old(Val()).(buffer := old(readBuffer)[|line| + 1..], lines := old(lines) + [line])
    {
      var pos := Newline(readBuffer);
      line := readBuffer[..pos];
      readBuffer := readBuffer[pos + 1..];
      lines := lines + [line];
    }
  }

  class ServerContext {
    const requests: MutexQueue<Request>
    const responses: MutexQueue<Resp>
    var nextRequestId: nat
    var reqToClient: map<nat, ClientConnection>
    ghost var clients: map<nat, ClientConnection>

    constructor (requests: MutexQueue<Request>, responses: MutexQueue<Resp>)
      ensures this.requests == requests && this.responses == responses && nextRequestId == 1
      ensures reqToClient == map[] && clients == map[]
    {
      this.requests, this.responses, nextRequestId, reqToClient, clients := requests, responses, 1, map[], map[];
    }

    /** The connections are different objects and have the values s says. */
    ghost predicate Connections(s: map<nat, Client>)
      reads this`clients, clients.Values
    {
      && clients.Keys == s.Keys
      && (forall c | c in clients :: clients[c].Val() == s[c])
      && (forall c, d | c in clients && d in clients && c != d :: clients[c] != clients[d])
    }

    /** Every id the table knows leads to the connection that submitted it. */
    ghost predicate Table(s: map<nat, nat>)
      reads this
    {
      && reqToClient.Keys == s.Keys
      && (forall id | id in s :: s[id] in clients && reqToClient[id] == clients[s[id]] && id < nextRequestId)
    }

    ghost predicate Inbox(v: seq<Req>)
      reads requests, requests.queue
    {
      |requests.queue| == |v| && forall i :: 0 <= i < |v| ==> requests.queue[i].Val() == v[i]
    }

    ghost predicate Is(s: Sys)
      reads this, clients.Values, requests, requests.queue, responses
    {
      && Connections(s.clients) && Table(s.reqToClient) && nextRequestId == s.nextId
      && responses.queue == s.world.responses && Inbox(s.world.inbox)
    }

    method OnNewConnection(ghost c: nat, ghost s: Sys) returns (client: ClientConnection)
      requires Is(s) && c !in clients
      modifies this`clients
      ensures fresh(client) && clients == old(clients)[c := client]
      ensures Is(s.(clients := s.clients[c := NewClient()]))
    {
      client := new ClientConnection();
      AddClient(c, client, s);
    }

    ghost method AddClient(c: nat, client: ClientConnection, s: Sys)
      requires Is(s) && c !in clients && client.Val() == NewClient() && forall d | d in clients :: clients[d] != client
      modifies this`clients
      ensures clients == old(clients)[c := client]
      ensures Is(s.(clients := s.clients[c := NewClient()]))
    {
      hide ServerContext.Inbox, ClientConnection.Val;
      clients := clients[c := client];
    }

    method OnWritten(client: ClientConnection, ghost c: nat, ghost s: Sys)
      requires Is(s) && c in clients && clients[c] == client
      modifies client
      ensures c in s.clients && Is(s.(clients := s.clients[c := OnWrite(s.clients[c])]))
    {
      hide OnWrite;
      client.OnWrite();
    }

    method CutLine(client: ClientConnection, ghost c: nat, ghost s: Sys) returns (line: string)
      requires Is(s) && c in clients && clients[c] == client && Newline(client.readBuffer) < |client.readBuffer|
      modifies client
      ensures var cl := s.clients[c];
              && line == cl.buffer[..Newline(cl.buffer)]
              && Is(s.(clients := s.clients[c := cl.(buffer := cl.buffer[|line| + 1..], lines := cl.lines + [line])]))
    {
      line := client.TakeLine();
    }

    method Reply(client: ClientConnection, data: string, ghost item: Item, ghost c: nat, ghost s: Sys)
      requires Is(s) && c in clients && clients[c] == client && data == Render(item)
      modifies client
      ensures Is(s.(clients := s.clients[c := EnqueueWrite(s.clients[c], item)]))
    {
      hide EnqueueWrite;
      client.EnqueueWrite(data, item);
    }

    method SubmitRequest(req: Request, ghost s: Sys)
      requires Is(s)
      modifies requests
      ensures Is(s.(world := Submit(s.world, req.Val())))
    {
      requests.Push(req);
    }

    method NoteAccepted(client: ClientConnection, ghost c: nat, ghost s: Sys)
      requires Is(s) && c in clients && clients[c] == client
      modifies client
      ensures Is(s.(clients := s.clients[c := s.clients[c].(accepted := s.clients[c].accepted + [s.nextId])]))
    {
      client.accepted := client.accepted + [nextRequestId];
    }

    /** Gives the connection the next request id. */
    method Register(client: ClientConnection, ghost c: nat, ghost s: Sys) returns (id: nat)
      requires Is(s) && c in clients && clients[c] == client
      modifies this`reqToClient, this`nextRequestId
      ensures id == s.nextId && Is(s.(reqToClient := s.reqToClient[s.nextId := c], origin := s.origin[s.nextId := c],
                                      nextId := s.nextId + 1))
    {
      hide ServerContext.Connections, ServerContext.Inbox;
      id := nextRequestId;
      if id !in reqToClient {
        reqToClient := reqToClient[id := client];
      }
      nextRequestId := id + 1;
    }

    method NewArrival(id: nat, tokens: seq<int>, ghost s: Sys) returns (req: Request)
      requires Is(s)
      ensures fresh(req) && req.Val() == NewRequest(id, tokens, SERVER_MAX_NEW) && Is(s)
    {
      hide NewRequest;
      req := new Request(id, tokens, SERVER_MAX_NEW);
    }

    /** One line of a client: a request for the scheduler, or a complaint. */
    method OnLine(client: ClientConnection, ghost c: nat, ghost s: Sys)
      requires Is(s) && c in clients && clients[c] == client && Newline(client.readBuffer) < |client.readBuffer|
      modifies this`reqToClient, this`nextRequestId, client, requests
      ensures Is(ReadLine(s, c))
    {
      hide ServerContext.Is, EnqueueWrite, ParseLine, NewRequest;
      ValueOf(c, s);
      ghost var cl := s.clients[c];
      var line := CutLine(client, c, s);
      ghost var cut := cl.(buffer := cl.buffer[|line| + 1..], lines := cl.lines + [line]);
      ghost var s1 := s.(clients := s.clients[c := cut]);
      var tokens := ParseRequestLine(line);
      if tokens == [] {
        Reply(client, "invalid request\n", Invalid, c, s1);
        assert s.clients[c := cut][c := EnqueueWrite(cut, Invalid)] == s.clients[c := EnqueueWrite(cut, Invalid)];
        return;
      }
      Accept(client, tokens, c, s1);
      assert s.clients[c := cut][c := cut.(accepted := cut.accepted + [s.nextId])]
          == s.clients[c := cut.(accepted := cut.accepted + [s.nextId])];
    }

    /** The tokens become the connection's next request. */
    method Accept(client: ClientConnection, tokens: seq<int>, ghost c: nat, ghost s: Sys)
      requires Is(s) && c in clients && clients[c] == client
      modifies this`reqToClient, this`nextRequestId, client, requests
      ensures c in s.clients
      ensures Is(s.(clients := s.clients[c := s.clients[c].(accepted := s.clients[c].accepted + [s.nextId])],
                    reqToClient := s.reqToClient[s.nextId := c], origin := s.origin[s.nextId := c],
                    nextId := s.nextId + 1,
                    world := Submit(s.world, NewRequest(s.nextId, tokens, SERVER_MAX_NEW))))
    {
      hide ServerContext.Is, NewRequest, Submit;
      ValueOf(c, s);
      NoteAccepted(client, c, s);
      ghost var noted := s.clients[c].(accepted := s.clients[c].accepted + [s.nextId]);
      ghost var s2 := s.(clients := s.clients[c := noted]);
      var id := Register(client, c, s2);
      ghost var s3 := s2.(reqToClient := s.reqToClient[s.nextId := c], origin := s.origin[s.nextId := c],
                               nextId := s.nextId + 1);
      var req := NewArrival(id, tokens, s3);
      SubmitRequest(req, s3);
    }

    /** Bytes of an open connection: every complete line is handled before the callback returns. */
    method OnRead(client: ClientConnection, data: string, ghost c: nat, ghost s: Sys)
      requires Is(s) && c in clients && clients[c] == client
      modifies this`reqToClient, this`nextRequestId, client, requests
      ensures c in s.clients
      ensures Is(ReadOnce(s, c, data))
      ensures client.lines == old(client.lines) + Lines(old(client.readBuffer) + data)
      ensures client.readBuffer == Leftover(old(client.readBuffer) + data)
    {
      hide ServerContext.Is, ReadLine, ReadAll, Lines, Leftover;
      ValueOf(c, s);
      Receive(client, data, c, s);
      ghost var start := WithBytes(s, c, data);
      ghost var cur := start;
      ValueOf(c, cur);
      ReadAllFrames(start, c);
      while Newline(client.readBuffer) < |client.readBuffer|
        invariant Is(cur) && c in cur.clients && cur.clients[c] == client.Val() && ReadAll(cur, c) == ReadAll(start, c)
        decreases |client.readBuffer|
      {
        ReadStep(cur, c);
        OnLine(client, c, cur);
        cur := ReadLine(cur, c);
        ValueOf(c, cur);
      }
      ReadDone(cur, c);
      AtRest(cur);
      ValueOf(c, cur);
    }

    method Receive(client: ClientConnection, data: string, ghost c: nat, ghost s: Sys)
      requires Is(s) && c in clients && clients[c] == client
      modifies client
      ensures c in s.clients
      ensures Is(WithBytes(s, c, data))
    {
      client.Append(data);
    }

    lemma AtRest(s: Sys)
      requires Is(s)
      ensures Is(s.(loop := Resting))
    {}

    /** The oldest response goes to the connection its request came from. */
    method DispatchResponse(ghost s: Sys)
      requires Is(s) && responses.queue != []
      modifies this`reqToClient, clients.Values, responses
      ensures Is(DispatchOne(s))
    {
      hide EnqueueWrite, Render;
      var resp := PopResponse(s);
      ghost var s1 := s.(world := Pop(s.world));
      if resp.id !in reqToClient {
        return;
      }
      var client := reqToClient[resp.id];
      ghost var c := s.reqToClient[resp.id];
      var data := ToString(resp.token);
      if resp.finished {
        data := data + " [DONE]";
      }
      data := data + "\n";
      RenderAnswer(resp);
      Reply(client, data, Answer(resp), c, s1);
      if resp.finished {
        Forget(resp.id, s1.(clients := s.clients[c := EnqueueWrite(s.clients[c], Answer(resp))]));
      }
    }

    lemma RenderAnswer(r: Resp)
      ensures Render(Answer(r)) == (if r.finished then ToString(r.token) + " [DONE]" else ToString(r.token)) + "\n"
    {}

    method PopResponse(ghost s: Sys) returns (resp: Resp)
      requires Is(s) && responses.queue != []
      modifies responses
      ensures s.world.responses != [] && resp == s.world.responses[0] && Is(s.(world := Pop(s.world)))
    {
      var ok, item := responses.TryPop();
      resp := item[0];
    }

    method Forget(id: nat, ghost s: Sys)
      requires Is(s)
      modifies this`reqToClient
      ensures Is(s.(reqToClient := s.reqToClient - {id}))
    {
      hide ServerContext.Connections, ServerContext.Inbox;
      reqToClient := reqToClient - {id};
    }

    /** The wake-up callback: everything queued is dispatched before it returns. */
    method OnResponseAsync(ghost s: Sys)
      requires Is(s)
      modifies this`reqToClient, clients.Values, responses
      ensures Is(DispatchAll(s))
    {
      hide ServerContext.Is, DispatchOne;
      ghost var cur := s;
      QueueOf(cur);
      while responses.queue != []
        invariant Is(cur) && responses.queue == cur.world.responses && DispatchAll(cur) == DispatchAll(s)
        decreases |responses.queue|
      {
        DispatchShrinks(cur);
        DispatchResponse(cur);
        cur := DispatchOne(cur);
        QueueOf(cur);
      }
      AtRest(cur);
    }

    lemma QueueOf(s: Sys)
      requires Is(s)
      ensures responses.queue == s.world.responses
    {}

    lemma ValueOf(c: nat, s: Sys)
      requires Is(s) && c in clients
      ensures c in s.clients && clients[c].Val() == s.clients[c]
    {}
  }
}

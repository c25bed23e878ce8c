/** The inference backend: it answers a whole batch at once. */
module Backends {
  import opened Types

  datatype Kind = Prefill | Decode

  datatype Backend = Backend(prefill: seq<Req> -> seq<Resp>, decode: seq<Req> -> seq<Resp>) {
    function Reply(kind: Kind, batch: seq<Req>): seq<Resp> {
      if kind == Prefill then prefill(batch) else decode(batch)
    }
  }

  /** A next-token rule that looks at one request only. */
  datatype Out = Out(token: int, last: bool)
  datatype Model = Model(first: Core -> Out, next: Core -> Out) {
    function Step(kind: Kind, c: Core): Out { if kind == Prefill then first(c) else next(c) }
  }

  function Replies(m: Model, kind: Kind, batch: seq<Req>): seq<Resp> {
    seq(|batch|, i requires 0 <= i < |batch| =>
      var o := m.Step(kind, batch[i].ToCore()); Resp(batch[i].id, o.token, o.last))
  }

  /** The backend treats each request of a batch as if it were alone. */
  ghost predicate Pointwise(be: Backend, m: Model) {
    forall kind, batch :: be.Reply(kind, batch) == Replies(m, kind, batch)
  }

  function MockFirst(c: Core): Out { Out(FIRST_TOKEN, false) }

  function MockNext(c: Core): Out {
    if c.Generated() >= c.maxNew - 1 then Out(EOS, true) else Out(FIRST_TOKEN + c.Generated(), false)
  }

  const MOCK_MODEL: Model := Model(MockFirst, MockNext)

  const MOCK_BACKEND: Backend :=
    Backend((b: seq<Req>) => Replies(MOCK_MODEL, Prefill, b), (b: seq<Req>) => Replies(MOCK_MODEL, Decode, b))

  lemma MockIsPointwise()
    ensures Pointwise(MOCK_BACKEND, MOCK_MODEL)
  {}

  method MockPrefill(reqs: seq<Req>) returns (out: seq<Resp>)
    ensures out == MOCK_BACKEND.Reply(Prefill, reqs)
  {
    out := [];
    for i := 0 to |reqs|
      invariant out == Replies(MOCK_MODEL, Prefill, reqs[..i])
    {
      out := out + [Resp(reqs[i].id, FIRST_TOKEN, false)];
    }
    assert reqs[..|reqs|] == reqs;
  }

  method MockDecode(reqs: seq<Req>) returns (out: seq<Resp>)
    ensures out == MOCK_BACKEND.Reply(Decode, reqs)
  {
    out := [];
    for i := 0 to |reqs|
      invariant out == Replies(MOCK_MODEL, Decode, reqs[..i])
    {
      var generated := reqs[i].Generated();
      if generated >= reqs[i].maxNew - 1 {
        out := out + [Resp(reqs[i].id, EOS, true)];
      } else {
        out := out + [Resp(reqs[i].id, FIRST_TOKEN + generated, false)];
      }
    }
    assert reqs[..|reqs|] == reqs;
  }
}

/** The very bytes a client gets. */
module Bytes {
  import opened Types
  import opened Allocation
  import opened Backends
  import opened Ledger
  import opened Theorems
  import opened Text
  import opened ServerModel
  import opened ServerProofs

  // ---- texts ----

  lemma ThousandAnd(k: nat)
    requires k < 7
    ensures Digits(1000 + k) == ["1000", "1001", "1002", "1003", "1004", "1005", "1006"][k]
  {
    assert Digits(1) == "1";
    assert Digits(10) == "10";
    assert Digits(100) == "100";
    assert Digits(1000 + k) == "100" + [DigitChar(k)];
  }

  lemma EndOfText()
    ensures Digits(50256) == "50256"
  {
    assert Digits(5) == "5";
    assert Digits(50) == "50";
    assert Digits(502) == "502";
    assert Digits(5025) == "5025";
  }

  /** The text of the k-th answer to a request of the server with the mock backend. */
  const MOCK_TEXT: seq<string> :=
    ["1000\n", "1001\n", "1002\n", "1003\n", "1004\n", "1005\n", "1006\n", "50256 [DONE]\n"]

  lemma MockText(id: nat, k: nat)
    requires k < 8
    ensures var r := MockResponse(id, 8, k); Render(Answer(r)) == MOCK_TEXT[k]
  {
    if k < 7 {
      if k > 0 { ThousandAnd(k); } else { ThousandAnd(0); }
    } else {
      EndOfText();
    }
  }

  // ---- who is answered ----

  lemma {:induction false} AnswersSize(items: seq<Item>)
    ensures |Answers(items)| + Invalids(items) == |items|
    ensures Invalids(items) == 0 ==> forall k :: 0 <= k < |items| ==> items[k] == Answer(Answers(items)[k])
    ensures Answers(items) == [] ==> forall k :: 0 <= k < |items| ==> items[k] == Invalid
  {
    if items != [] { AnswersSize(items[..|items| - 1]); }
  }

  lemma {:induction false} ProjectAll(log: seq<Resp>, id: nat)
    requires forall k :: 0 <= k < |log| ==> log[k].id == id
    ensures Project(log, id) == log
  {
    if log != [] { ProjectAll(log[..|log| - 1], id); }
  }

  /** A client is only sent answers to requests of its own. */
  lemma OnlyOwnAnswers(be: Backend, m: Model, policy: Policy, s: Sys, c: nat, k: nat)
    requires Attainable(be, policy, s) && Pointwise(be, m) && c in s.clients
    requires k < |Answers(s.clients[c].items)|
    ensures Answers(s.clients[c].items)[k].id in s.clients[c].accepted
  {
    hide Attainable, Pointwise, Link, Open, ClientsOk, Reachable, Answers, Project;
    AttainableConsistent(be, m, policy, s);
    var a := Answers(s.clients[c].items);
    MemberProjects(a, a[k].id, k);
    assert Routed(s.origin, s.world.taken, s.clients[c].items, c, a[k].id);
  }

  lemma RenderStep(items: seq<Item>, i: Item)
    ensures RenderAll(items + [i]) == RenderAll(items) + Render(i) && RenderAll([]) == ""
  {
    hide Render;
    RenderSnoc(items, i);
  }

  /** The first n texts, one behind the other. */
  function TextUpTo(n: nat): string
    requires n <= 8
  {
    if n == 0 then "" else TextUpTo(n - 1) + MOCK_TEXT[n - 1]
  }

  lemma TextStep(n: nat, before: string, text: string, after: string)
    requires n < 8 && TextUpTo(n) == before && MOCK_TEXT[n] == text && after == before + text
    ensures TextUpTo(n + 1) == after
  {}

  lemma FourTexts()
    ensures TextUpTo(4) == "1000\n1001\n1002\n1003\n"
  {
    assert TextUpTo(0) == "";
    hide TextUpTo;
    TextStep(0, "", "1000\n", "1000\n");
    TextStep(1, "1000\n", "1001\n", "1000\n1001\n");
    TextStep(2, "1000\n1001\n", "1002\n", "1000\n1001\n1002\n");
    TextStep(3, "1000\n1001\n1002\n", "1003\n", "1000\n1001\n1002\n1003\n");
  }

  lemma SixTexts()
    ensures TextUpTo(6) == "1000\n1001\n1002\n1003\n1004\n1005\n"
  {
    hide TextUpTo;
    FourTexts();
    TextStep(4, "1000\n1001\n1002\n1003\n", "1004\n", "1000\n1001\n1002\n1003\n1004\n");
    TextStep(5, "1000\n1001\n1002\n1003\n1004\n", "1005\n", "1000\n1001\n1002\n1003\n1004\n1005\n");
  }

  lemma AllTexts()
    ensures TextUpTo(8) == "1000\n1001\n1002\n1003\n1004\n1005\n1006\n50256 [DONE]\n"
  {
    hide TextUpTo;
    SixTexts();
    TextStep(6, "1000\n1001\n1002\n1003\n1004\n1005\n", "1006\n",
             "1000\n1001\n1002\n1003\n1004\n1005\n1006\n");
    TextStep(7, "1000\n1001\n1002\n1003\n1004\n1005\n1006\n", "50256 [DONE]\n",
             "1000\n1001\n1002\n1003\n1004\n1005\n1006\n50256 [DONE]\n");
  }

  lemma {:induction false} RenderedUpTo(id: nat, items: seq<Item>, n: nat)
    requires n <= 8 && |items| == 8 && forall k :: 0 <= k < 8 ==> items[k] == Answer(MockResponse(id, 8, k))
    ensures RenderAll(items[..n]) == TextUpTo(n)
  {
    hide Render, MockResponse;
    if n == 0 {
      assert items[..0] == [];
    } else {
      RenderedUpTo(id, items, n - 1);
      Texts(id, items, n);
    }
  }

  lemma Texts(id: nat, items: seq<Item>, n: nat)
    requires 0 < n <= 8 && |items| == 8 && forall k :: 0 <= k < 8 ==> items[k] == Answer(MockResponse(id, 8, k))
    ensures RenderAll(items[..n]) == RenderAll(items[..n - 1]) + MOCK_TEXT[n - 1]
  {
    hide Render, RenderAll, MockResponse;
    MockText(id, n - 1);
    RenderStep(items[..n - 1], items[n - 1]);
    assert items[..n] == items[..n - 1] + [items[n - 1]];
  }

  /** With the mock backend and any allocator: a client of whose lines one was a request, and none was not, has got
      these bytes when the system is at rest. */
  lemma MockBytes(policy: Policy, s: Sys, c: nat)
    requires Attainable(MOCK_BACKEND, policy, s) && Settled(s) && c in s.clients
    requires |s.clients[c].accepted| == 1 && Invalids(s.clients[c].items) == 0
    ensures s.clients[c].sent == "1000\n1001\n1002\n1003\n1004\n1005\n1006\n50256 [DONE]\n"
  {
    hide Attainable, Settled, Answers, Project, RenderAll, Invalids, Pointwise, MockResponse;
    var cl := s.clients[c];
    var id, a := cl.accepted[0], Answers(cl.items);
    MockDelivery(policy, s, c, 0);
    forall k | 0 <= k < |a|
      ensures a[k].id == id
    {
      MockIsPointwise();
      OnlyOwnAnswers(MOCK_BACKEND, MOCK_MODEL, policy, s, c, k);
    }
    ProjectAll(a, id);
    AnswersSize(cl.items);
    forall k | 0 <= k < 8
      ensures cl.items[k] == Answer(MockResponse(id, 8, k))
    {
      MockResponseAt(id, k);
    }
    RenderedUpTo(id, cl.items, 8);
    AllTexts();
    assert cl.items[..8] == cl.items;
  }

  lemma MockResponseAt(id: nat, k: nat)
    requires k < 8
    ensures MockResponse(id, 8, k) ==
            [Resp(id, 1000, false), Resp(id, 1001, false), Resp(id, 1002, false), Resp(id, 1003, false),
             Resp(id, 1004, false), Resp(id, 1005, false), Resp(id, 1006, false), Resp(id, 50256, true)][k]
  {}

  /** A client that has sent one line, and no request, has got this when the system is at rest. */
  lemma ComplaintBytes(be: Backend, m: Model, policy: Policy, s: Sys, c: nat)
    requires Attainable(be, policy, s) && Pointwise(be, m) && Settled(s) && c in s.clients
    requires |s.clients[c].lines| == 1 && s.clients[c].accepted == []
    ensures s.clients[c].sent == "invalid request\n"
  {
    hide Attainable, Settled, Pointwise, Answers, RenderAll, Invalids, BadLines, Parsed, Consistent, ClientsOk;
    var cl := s.clients[c];
    AttainableConsistent(be, m, policy, s);
    ConsistentParts(be, policy, s);
    SettledSent(s, c);
    ClientStream(be, m, policy, s, c);
    OneBadLine(cl.lines);
    if Answers(cl.items) != [] { OnlyOwnAnswers(be, m, policy, s, c, 0); }
    AnswersSize(cl.items);
    assert cl.items == [Invalid] == [] + [Invalid];
    RenderStep([], Invalid);
  }

  lemma OneBadLine(lines: seq<string>)
    requires |lines| == 1 && |Parsed(lines)| == 0
    ensures BadLines(lines) == 1
  {
    assert lines[..0] == [];
  }
}

/** The records that the server, the scheduler, the KV allocator and the backend pass around. */
module Types {

  const N_LAYERS: nat := 12
  const KV_BLOCK: nat := 16
  const MAX_BATCH: nat := 16
  const EOS: int := 50256
  const FIRST_TOKEN: int := 1000

  datatype RequestState =
    | WaitingPrefill | DeferredPrefillKV | PrefillRunning
    | DecodeReady | DeferredDecodeKV | DecodeRunning
    | SwappedOut | Finished | Aborted

  datatype Residency = NoKv | Gpu | Cpu | Mixed

  /** One layer's paged KV cache: logical block i lives in physical block table[i]. */
  datatype Kv = Kv(table: seq<int>, numTokens: int)

  /** The value of a request. The scheduler owns every request through a unique pointer. */
  datatype Req = Req(
    id: nat, tokens: seq<int>, promptLen: nat, kv: seq<Kv>, maxNew: int,
    state: RequestState, residency: Residency)
  {
    function Generated(): int { |tokens| - promptLen }

    predicate IsFinish() { Generated() >= maxNew }

    /** What of a request determines its output. */
    function ToCore(): Core { Core(id, tokens, promptLen, maxNew, state == Finished) }

    /** Which submission a request is, whatever has been generated for it. */
    function ToOrigin(): Origin {
      Origin(id, if promptLen <= |tokens| then tokens[..promptLen] else tokens, maxNew)
    }
  }

  datatype Core = Core(id: nat, tokens: seq<int>, promptLen: nat, maxNew: int, done: bool) {
    function Generated(): int { |tokens| - promptLen }
  }

  datatype Origin = Origin(id: nat, prompt: seq<int>, maxNew: int)

  datatype Resp = Resp(id: nat, token: int, finished: bool)

  /** The request that the Request constructor builds from a prompt. */
  function NewRequest(id: nat, prompt: seq<int>, maxNew: int): Req {
    Req(id, prompt, |prompt|, seq(N_LAYERS, _ => Kv([], 0)), maxNew, WaitingPrefill, NoKv)
  }

  function Cores(q: seq<Req>): seq<Core> {
    seq(|q|, i requires 0 <= i < |q| => q[i].ToCore())
  }

  function Origins(q: seq<Req>): seq<Origin> {
    seq(|q|, i requires 0 <= i < |q| => q[i].ToOrigin())
  }

  function CeilBlocks(n: nat): nat { (n + KV_BLOCK - 1) / KV_BLOCK }

  function Max(a: int, b: int): int { if a < b then b else a }
}

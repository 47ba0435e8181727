/** One request: its token history and its KV bookkeeping. */
module Requests {
  import opened Kv
  import opened BlockPool

  datatype Status = Waiting | Running | Paused | Finished
  datatype Residency = NoKv | OnGpu | OnCpu

  /** `draft` speculative tokens, if any, are the tail of `tokens`; `policy` stands for the
      sampling parameters. */
  datatype Req = Req(
    tokens: seq<Token>, prompt: nat, computed: nat, scheduled: nat, table: seq<nat>,
    cached: nat, published: nat, parent: Hash, epoch: nat, draft: nat,
    maxTokens: nat, minTokens: int, ignoreEos: bool, stops: set<Token>, hold: bool, policy: int,
    status: Status, residency: Residency, snapshot: Option<nat>)
  {
    /** Tokens in the history not yet written to the pool. */
    function Uncomputed(): nat {
      if |tokens| >= computed then |tokens| - computed else 0
    }

    predicate PrefillComplete() {
      computed >= prompt
    }

    /** `reset_kv_state`: the chain parent is deliberately not among the fields it clears. */
    function ResetKv(): Req {
      this.(computed := 0, scheduled := 0, draft := 0, cached := 0, published := 0,
            residency := NoKv, snapshot := None)
    }
  }
}

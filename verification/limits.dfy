/** The two counters that bound one agent run. */
module Limits {
  import opened Bytes

  /** Tool calls of a run against an optional cap. */
  class ToolCallLimitTracker {
    const limit: Option<nat>
    var count: nat

    constructor (limit: Option<nat>)
      ensures this.limit == limit && count == 0
    {
      this.limit := limit;
      count := 0;
    }

    method Increment(n: nat)
      modifies this
      ensures count == old(count) + n
    {
      count := count + n;
    }

    predicate IsExceeded()
      reads this
      ensures IsExceeded() <==> Remaining() == Some(0)
    {
      match limit
      case None => false
      case Some(max) => count >= max
    }

    function Remaining(): (r: Option<nat>)
      reads this
      ensures r.Some? <==> limit.Some?
      ensures r.Some? && count <= limit.value ==> count + r.value == limit.value
    {
      match limit
      case None => None
      case Some(max) => Some(Max(max - count, 0))
    }

    method Reset()
      modifies this
      ensures count == 0
    {
      count := 0;
    }
  }

  /** Tokens of a run against a cap; a cap of zero is no cap. */
  class TokenBudget {
    const limit: nat
    var inputUsed: nat
    var outputUsed: nat

    constructor (limit: nat)
      ensures this.limit == limit && TotalUsed() == 0
    {
      this.limit := limit;
      inputUsed, outputUsed := 0, 0;
    }

    method Record(inputTokens: nat, outputTokens: nat)
      modifies this
      ensures inputUsed == old(inputUsed) + inputTokens && outputUsed == old(outputUsed) + outputTokens
    {
      inputUsed := inputUsed + inputTokens;
      outputUsed := outputUsed + outputTokens;
    }

    function TotalUsed(): nat
      reads this
    {
      inputUsed + outputUsed
    }

    function Remaining(): (r: Option<nat>)
      reads this
      ensures r.Some? <==> limit > 0
      ensures r.Some? && TotalUsed() <= limit ==> TotalUsed() + r.value == limit
    {
      if limit == 0 then None
      else if TotalUsed() >= limit then Some(0)
      else Some(limit - TotalUsed())
    }

    predicate IsExceeded()
      reads this
      ensures IsExceeded() <==> Remaining() == Some(0)
    {
      limit != 0 && TotalUsed() >= limit
    }

    method Reset()
      modifies this
      ensures TotalUsed() == 0
    {
      inputUsed, outputUsed := 0, 0;
    }
  }
}

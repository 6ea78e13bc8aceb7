/**
 * The "ping" tool. Each server instance captures its own toggle, which
 * starts false and is flipped before each use; the flipped value picks a
 * short or a long artificial delay. Clock readings are parameters.
 */
module Ping {
  import opened Protocol
  import NumberText

  const ShortDelayMs: int := 100
  const LongDelayMs: int := 1000
  const ResponseOpening: string := "Ping response time: "

  /** The toggle's value after `n` invocations. */
  function ShortAfter(n: nat): bool {
    if n == 0 then false else !ShortAfter(n - 1)
  }

  /** The delay chosen from the toggle's value. */
  function DelayFor(short: bool): int {
    if short then ShortDelayMs else LongDelayMs
  }

  /** The toggle is set exactly after an odd number of invocations. */
  lemma {:induction false} ShortAfterOdd(n: nat)
    ensures ShortAfter(n) <==> n % 2 == 1
  {
    if n > 0 {
      ShortAfterOdd(n - 1);
    }
  }

  /**
   * Invocation n (counting from 1) waits 100 ms when n is odd and 1000 ms
   * when n is even, so invocations n and n + 2 wait alike.
   */
  lemma InvocationDelay(n: nat)
    requires n >= 1
    ensures DelayFor(ShortAfter(n)) == if n % 2 == 1 then 100 else 1000
    ensures DelayFor(ShortAfter(n + 2)) == DelayFor(ShortAfter(n))
    ensures DelayFor(ShortAfter(n + 1)) != DelayFor(ShortAfter(n))
  {
    ShortAfterOdd(n);
  }

  /** The tool's text result for a measured elapsed time. */
  function ResponseTime(startTime: int, endTime: int): (r: ToolResult)
    ensures |r.content| == 1
    ensures var text := r.content[0].text;
            && |text| == |ResponseOpening| + |NumberText.Format(endTime - startTime)| + 2
            && text[..|ResponseOpening|] == ResponseOpening
            && text[|text| - 2..] == "ms"
            && NumberText.Parsable(text[|ResponseOpening|..|text| - 2])
            && NumberText.Parse(text[|ResponseOpening|..|text| - 2]) == endTime - startTime
  {
    var text := ResponseOpening + NumberText.Format(endTime - startTime) + "ms";
    assert text[..|ResponseOpening|] == ResponseOpening;
    assert text[|ResponseOpening|..|text| - 2] == NumberText.Format(endTime - startTime);
    NumberText.ParseFormat(endTime - startTime);
    ToolResult([Text(text)])
  }

  /** The ping tool as registered on one server instance. */
  class PingTool {
    var shortDelay: bool
    ghost var invocations: nat

    ghost predicate Valid()
      reads this
    {
      shortDelay == ShortAfter(invocations)
    }

    /** What each `getServer()` call sets up: a toggle that starts false. */
    constructor ()
      ensures Valid() && invocations == 0 && !shortDelay
    {
      shortDelay := false;
      invocations := 0;
    }

    /**
     * One invocation: flip the toggle, then choose the delay from it.
     * `startTime` and `endTime` are the clock readings around the wait.
     */
    method Ping(startTime: int, endTime: int) returns (delay: int, result: ToolResult)
      requires Valid()
      modifies this
      ensures Valid() && invocations == old(invocations) + 1
      ensures shortDelay == !old(shortDelay)
      ensures delay == DelayFor(ShortAfter(invocations))
      ensures result == ResponseTime(startTime, endTime)
    {
      shortDelay := !shortDelay;
      invocations := invocations + 1;
      delay := if shortDelay then ShortDelayMs else LongDelayMs;
      result := ResponseTime(startTime, endTime);
    }
  }

  /**
   * Every POST builds a new server, so the first ping it handles always
   * waits the short delay.
   */
  method PingOnFreshServer(startTime: int, endTime: int) returns (delay: int)
    ensures delay == ShortDelayMs
  {
    var tool := new PingTool();
    var result;
    delay, result := tool.Ping(startTime, endTime);
  }
}

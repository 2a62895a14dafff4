/** Writing a message to a non-blocking socket that may take it in pieces. */
module Sockets {
  import opened Messages

  /** What one `send` call answers: it takes up to `n` bytes of what it is offered, or fails. */
  datatype Write = Took(n: nat) | WouldBlock | Broken

  /** The call returned 0, returned -1, or is still trying when the script of answers ends. */
  datatype Outcome = Success | Failure | Waiting

  function Max(a: int, b: int): int {
    if a < b then b else a
  }

  /** How many bytes the loop sets out to write: the size is kept in an `int`. */
  function Target(message: string): nat {
    Max(0, Int32(|message|))
  }

  /** The bytes that the answers were ready to take. */
  function Offered(script: seq<Write>): nat {
    if script == [] then 0 else Offered(script[..|script| - 1]) + TakenBy(script[|script| - 1])
  }

  function TakenBy(answer: Write): nat {
    if answer.Took? then answer.n else 0
  }

  lemma OfferedStep(script: seq<Write>, k: nat)
    requires k < |script|
    ensures Offered(script[..k + 1]) == Offered(script[..k]) + TakenBy(script[k])
  {
    assert script[..k + 1][..k] == script[..k];
  }

  /** The answers that take at least one byte. */
  function Productive(script: seq<Write>): nat {
    if script == [] then 0
    else (if script[0].Took? && script[0].n > 0 then 1 else 0) + Productive(script[1..])
  }

  lemma {:induction false} ProductiveStep(script: seq<Write>, k: nat)
    requires k < |script|
    ensures Productive(script[..k + 1]) ==
            Productive(script[..k]) + if script[k].Took? && script[k].n > 0 then 1 else 0
  {
    if k > 0 {
      assert script[..k + 1][1..] == script[1..][..k];
      assert script[..k][1..] == script[1..][..k - 1];
      ProductiveStep(script[1..], k - 1);
    } else {
      assert script[..1][1..] == [];
    }
  }

  /**
    `sendMessage`: the bytes on the wire are always a prefix of the message, as long as the calls were
    ready to take, success means the whole
    target has been written, failure that the last call reported an error, and the loop ends once
    enough answers took a byte. Success means that everything is on the wire exactly for messages
    shorter than 2^31 bytes: the size of a longer one is truncated before the loop starts.
   */
  method SendMessage(message: string, script: seq<Write>) returns (outcome: Outcome, wire: string, calls: nat)
    ensures calls <= |script|
    ensures |wire| <= Target(message) <= |message| && wire == message[..|wire|]
    ensures |wire| == Min(Target(message), Offered(script[..calls]))
    ensures outcome.Success? <==> |wire| == Target(message)
    ensures outcome.Failure? <==> calls > 0 && script[calls - 1].Broken?
    ensures forall i :: 0 <= i < calls - 1 ==> !script[i].Broken?
    ensures outcome.Waiting? ==> Productive(script) < Target(message)
    ensures outcome.Success? ==> (wire == message <==> |message| < 0x8000_0000)
  {
    var totalBytesSent, totalSize := 0, Int32(|message|);
    calls := 0;
    while totalBytesSent < totalSize
      invariant calls <= |script|
      invariant 0 <= totalBytesSent <= Target(message) <= |message|
      invariant forall i :: 0 <= i < calls ==> !script[i].Broken?
      invariant totalBytesSent == Min(Target(message), Offered(script[..calls]))
      invariant Productive(script[..calls]) <= totalBytesSent
      decreases |script| - calls
    {
      if calls == |script| {
        assert script[..calls] == script;
        return Waiting, message[..totalBytesSent], calls;
      }
      var answer := script[calls];
      ProductiveStep(script, calls);
      OfferedStep(script, calls);
      calls := calls + 1;
      match answer {
        case Took(n) => totalBytesSent := totalBytesSent + Min(n, totalSize - totalBytesSent);
        case WouldBlock =>
        case Broken => return Failure, message[..totalBytesSent], calls;
      }
    }
    outcome, wire := Success, message[..totalBytesSent];
  }
}

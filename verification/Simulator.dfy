/** The integration simulator: a counter of valid requests and, in lab mode, failures chosen by the source name. */
module Simulator {
  /** `atomic.Uint64` wraps around at 2^64. */
  const WRAP: nat := 0x1_0000_0000_0000_0000

  type Counter = n: nat | n < WRAP

  datatype Request = Request(importId: string, source: string, records: int)

  /** The status written, or nothing when the client left while a slow request was waiting. */
  datatype Reply = Status(code: int) | NoReply

  predicate Acceptable(r: Request) { r.importId != "" && r.records >= 1 }

  predicate Success2xx(reply: Reply) { reply.Status? && 200 <= reply.code < 300 }

  class Handler {
    const labMode: bool
    var requests: Counter

    constructor (labMode: bool)
      ensures this.labMode == labMode && requests == 0
    {
      this.labMode := labMode;
      requests := 0;
    }

    method Process(r: Request, clientLeft: bool) returns (reply: Reply)
      modifies this
      ensures (requests, reply) == Answer(labMode, old(requests), r, clientLeft)
      // An invalid request is refused and not counted.
      ensures r.importId == "" || r.records < 1 ==> reply == Status(400) && requests == old(requests)
      // Every other one is counted, modulo 2^64.
      ensures r.importId != "" && r.records >= 1 ==>
                && requests == (if old(requests) == 18446744073709551615 then 0 else old(requests) + 1)
                && reply != Status(400)
                && (reply.NoReply? <==> labMode && r.source == "slow" && clientLeft)
                && (reply == Status(500) <==> labMode && r.source == "force-error")
                && (reply == Status(503) <==> labMode && r.source == "flaky" && requests % 2 == 1)
                && (reply == Status(200) || reply == Status(500) || reply == Status(503) || reply == NoReply)
    {
      if !Acceptable(r) {
        return Status(400);
      }
      requests := if requests + 1 == WRAP then 0 else requests + 1;
      var sequence := requests;
      if labMode {
        if r.source == "slow" {
          if clientLeft {
            return NoReply;
          }
        } else if r.source == "force-error" {
          return Status(500);
        } else if r.source == "flaky" {
          if sequence % 2 == 1 {
            return Status(503);
          }
        }
      }
      reply := Status(200);
    }
  }

  /** What one request does to the counter and what is answered, as a table of the cases. */
  function Answer(lab: bool, counter: Counter, r: Request, clientLeft: bool): (Counter, Reply) {
    var next: Counter := (counter + 1) % WRAP;
    if !Acceptable(r) then (counter, Status(400))
    else if lab && r.source == "slow" && clientLeft then (next, NoReply)
    else if lab && r.source == "force-error" then (next, Status(500))
    else if lab && r.source == "flaky" && counter % 2 == 0 then (next, Status(503))
    else (next, Status(200))
  }

  /** Of two valid flaky requests in a row exactly one succeeds, also where the counter wraps around. */
  lemma FlakyAlternates(counter: Counter, r: Request, s: Request, left: bool)
    requires Acceptable(r) && Acceptable(s) && r.source == "flaky" && s.source == "flaky"
    ensures var (next, first) := Answer(true, counter, r, left);
            var (_, second) := Answer(true, next, s, left);
            Success2xx(first) <==> !Success2xx(second)
  {
    assert WRAP % 2 == 0;
    if counter + 1 < WRAP {
      assert (counter + 1) % WRAP == counter + 1;
    } else {
      assert (counter + 1) % WRAP == 0;
    }
  }
}

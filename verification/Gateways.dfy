/** The upstream gateways as seen by one running operation.

Each await sends a call and gets back any reply the call admits: the outcome is chosen by
an adversary, so what is proved of an operation holds for every sequence of replies.
*/
module Gateways {
  import opened Models

  datatype Exchange = Exchange(call: Call, reply: Reply)

  function Replies(log: seq<Exchange>): seq<Reply> {
    seq(|log|, i requires 0 <= i < |log| => log[i].reply)
  }

  lemma RepliesAppend(log: seq<Exchange>, x: Exchange)
    ensures Replies(log + [x]) == Replies(log) + [x.reply]
  {
  }

  class Gateway {
    var log: seq<Exchange>
    var slept: nat // back-off so far, in steps of 0.05 s

    constructor ()
      ensures log == [] && slept == 0
    {
      log, slept := [], 0;
    }

    method Await(call: Call) returns (reply: Reply)
      modifies this`log
      ensures Answers(call, reply)
      ensures log == old(log) + [Exchange(call, reply)]
    {
      assert Answers(call, Failed(Timeout));
      reply :| Answers(call, reply);
      log := log + [Exchange(call, reply)];
    }

    method Sleep(steps: nat)
      modifies this`slept
      ensures slept == old(slept) + steps
    {
      slept := slept + steps;
    }
  }
}

/**
 * The HTTP client the service is given, as an oracle: it answers requests
 * from a script of replies, in order, and keeps a log of what it was asked.
 */
module Transport {
  import opened GuoduTypes

  /** What the client throws once its script is used up. */
  const NoReply := "no reply"

  /** The reply to the `k`-th request from now. */
  function ReplyAt(replies: seq<HttpReply>, k: nat): HttpReply {
    if k < |replies| then replies[k] else Raised(NoReply)
  }

  /** The script left after `k` requests. */
  function Drop(replies: seq<HttpReply>, k: nat): (rest: seq<HttpReply>)
    ensures forall j :: ReplyAt(rest, j) == ReplyAt(replies, k + j)
  {
    if k <= |replies| then replies[k..] else []
  }

  lemma DropTwice(replies: seq<HttpReply>, a: nat, b: nat)
    ensures Drop(Drop(replies, a), b) == Drop(replies, a + b)
  {
  }

  class Client {
    /** The replies still to be given, first one next. */
    var replies: seq<HttpReply>
    /** Every request made so far, oldest first. */
    ghost var log: seq<HttpRequest>

    constructor (script: seq<HttpReply>)
      ensures replies == script && log == []
    {
      replies := script;
      log := [];
    }

    /** `ClientInterface::request`: answer with the next scripted reply. */
    method Request(req: HttpRequest) returns (reply: HttpReply)
      modifies this
      ensures reply == ReplyAt(old(replies), 0)
      ensures replies == Drop(old(replies), 1)
      ensures log == old(log) + [req]
    {
      reply := ReplyAt(replies, 0);
      replies := Drop(replies, 1);
      log := log + [req];
    }
  }
}

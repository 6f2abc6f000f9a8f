/**
 * The Guodu short message service: `send` to one or many subscribers in
 * batches, and `queryQuota`. Its settings are fixed at construction; the
 * only state that changes is the HTTP client's.
 */
module GuoduService {
  import opened Wrappers
  import opened PhpStrings
  import opened GuoduTypes
  import opened InputChecks
  import opened Requests
  import opened Responses
  import opened Transport
  import opened Batching

  class Service {
    const account: string
    const password: string
    const settings: Settings
    const client: Client

    constructor (account: string, password: string, options: ServiceOptions, client: Client)
      ensures this.account == account && this.password == password && this.client == client
      ensures settings == MergeDefaults(options)
    {
      this.account := account;
      this.password := password;
      this.settings := MergeDefaults(options);
      this.client := client;
    }

    /**
     * `send`: validate, place the merchant name, then send in batches.
     * A rejected call makes no request at all.
     */
    method Send(message: string, subscriber: Subscriber, options: SendOptions, defaultExpiry: string)
      returns (r: Result<Option<map<string, string>>, Exception>)
      modifies client
      ensures CheckInput(message, subscriber).Failure? ==>
                r == Failure(CheckInput(message, subscriber).error) && unchanged(client)
      ensures CheckInput(message, subscriber).Success? ==>
                var text := FormatMessage(CheckInput(message, subscriber).value, settings.name, NamePosition(options));
                SentInBatches(Dispatch(account, password, settings, text, options, defaultExpiry), Recipients(subscriber),
                              old(client.log), old(client.replies), client.log, client.replies, r)
    {
      var checked := CheckInput(message, subscriber);
      if checked.Failure? {
        return Failure(checked.error);
      }
      var text := FormatMessage(checked.value, settings.name, NamePosition(options));
      r := SendMessage(text, Recipients(subscriber), options, defaultExpiry);
    }

    /**
     * `sendMessage`: slices of 200 in order, one request per non-empty slice,
     * stopping after a short slice or at the first exception; the id maps
     * are joined with PHP's array union, and an empty result is null.
     */
    method SendMessage(message: string, subscribers: seq<string>, options: SendOptions, defaultExpiry: string)
      returns (r: Result<Option<map<string, string>>, Exception>)
      modifies client
      ensures SentInBatches(Dispatch(account, password, settings, message, options, defaultExpiry), subscribers,
                            old(client.log), old(client.replies), client.log, client.replies, r)
    {
      ghost var d := Dispatch(account, password, settings, message, options, defaultExpiry);
      ghost var log0, replies0 := client.log, client.replies;
      var numberOfBatch := (|subscribers| + BatchSize - 1) / BatchSize;
      var offset: nat := 0;
      var response: map<string, string> := map[];

      var batch: nat := 0;
      LoopStarts(d, subscribers, log0, replies0);
      while batch < numberOfBatch
        invariant batch <= numberOfBatch
        invariant LoopState(d, subscribers, log0, replies0, client.log, client.replies, batch, offset, response)
      {
        // Up to 200 subscribers from the offset on.
        var end := if offset + BatchSize <= |subscribers| then offset + BatchSize else |subscribers|;
        var slice := subscribers[offset..end];
        ghost var from := offset;
        offset := offset + BatchSize;
        if slice != [] {
          ghost var log1, replies1 := client.log, client.replies;
          var batchResponse := DoSendMessage(message, slice, options, defaultExpiry);
          if batchResponse.Failure? {
            LoopFails(d, subscribers, log0, replies0, log1, replies1, batch, from, response, end);
            return Failure(batchResponse.error);
          }
          if |slice| < BatchSize {
            LoopFinishes(d, subscribers, log0, replies0, log1, replies1, batch, from, response, end);
            response := Absorb(response, batchResponse.value);
            break;
          } else {
            LoopContinues(d, subscribers, log0, replies0, log1, replies1, batch, from, response);
            response := Absorb(response, batchResponse.value);
            batch := batch + 1;
            continue;
          }
        }
        assert false;
        break;  // no subscriber left
      }
      if batch == numberOfBatch {
        assert numberOfBatch * BatchSize >= |subscribers|;
        LoopEnds(d, subscribers, log0, replies0, client.log, client.replies, batch, offset, response);
      }
      r := Finish(Success(response));
    }

    /** `doSendMessage`: post the form for one batch and parse the reply. */
    method DoSendMessage(message: string, subscribers: seq<string>, options: SendOptions, defaultExpiry: string)
      returns (r: Result<Option<map<string, string>>, Exception>)
      modifies client
      ensures client.log == old(client.log) + [SendRequest(Dispatch(account, password, settings, message, options, defaultExpiry), subscribers)]
      ensures client.replies == Drop(old(client.replies), 1)
      ensures r == BatchResult(ReplyAt(old(client.replies), 0), options.roundTrip)
    {
      var reply := client.Request(Post(settings.sendUrl,
        BuildRequestForSending(account, password, settings, subscribers, message, options, defaultExpiry)));
      r := BatchResult(reply, options.roundTrip);
    }

    /** `queryQuota`: one GET to the quota URL; a status other than 200 fails, else the quota. */
    method QueryQuota() returns (r: Result<int, Exception>)
      modifies client
      ensures client.log == old(client.log) + [Get(QuotaRequestUrl(account, password, settings))]
      ensures client.replies == Drop(old(client.replies), 1)
      ensures r == QuotaResult(ReplyAt(old(client.replies), 0))
    {
      var reply := client.Request(Get(QuotaRequestUrl(account, password, settings)));
      r := QuotaResult(reply);
    }
  }

  /**
   * What `sendMessage` must have done, given the client's log and script
   * before (`log0`, `replies0`) and after (`log`, `replies`): one request per
   * batch up to the first failing one, and the result that outcome calls for.
   */
  ghost predicate SentInBatches(
    d: Dispatch, subscribers: seq<string>, log0: seq<HttpRequest>, replies0: seq<HttpReply>,
    log: seq<HttpRequest>, replies: seq<HttpReply>, r: Result<Option<map<string, string>>, Exception>)
  {
    var batches := Chunks(subscribers);
    var n := Issued(|batches|, replies0, d.options.roundTrip);
    && log == log0 + SendRequests(d, batches[..n])
    && replies == Drop(replies0, n)
    && r == Finish(Outcome(|batches|, replies0, d.options.roundTrip, map[]))
  }

  /**
   * The loop invariant of `sendMessage` after `batch` full batches: the list
   * from `offset` on holds the batches still to go, those sent are in the log,
   * and what is left to happen completes the specified outcome.
   */
  ghost predicate LoopState(
    d: Dispatch, subscribers: seq<string>, log0: seq<HttpRequest>, replies0: seq<HttpReply>,
    log: seq<HttpRequest>, replies: seq<HttpReply>, batch: nat, offset: nat, response: map<string, string>)
  {
    var all := Chunks(subscribers);
    var roundTrip := d.options.roundTrip;
    && offset == batch * BatchSize <= |subscribers|
    && batch <= |all| && all[batch..] == Chunks(subscribers[offset..])
    && log == log0 + SendRequests(d, all[..batch])
    && replies == Drop(replies0, batch)
    && Outcome(|all|, replies0, roundTrip, map[]) == Outcome(|all| - batch, replies, roundTrip, response)
    && Issued(|all|, replies0, roundTrip) == batch + Issued(|all| - batch, replies, roundTrip)
  }

  lemma LoopStarts(d: Dispatch, subscribers: seq<string>, log0: seq<HttpRequest>, replies0: seq<HttpReply>)
    ensures LoopState(d, subscribers, log0, replies0, log0, replies0, 0, 0, map[])
  {
    assert subscribers[0..] == subscribers;
    assert Chunks(subscribers)[..0] == [];
  }

  /** One more batch sent: its request joins the log and its reply leaves the script. */
  lemma LoopAdvances(
    d: Dispatch, subscribers: seq<string>, log0: seq<HttpRequest>, replies0: seq<HttpReply>,
    log: seq<HttpRequest>, replies: seq<HttpReply>, batch: nat, offset: nat, response: map<string, string>, end: nat)
    requires LoopState(d, subscribers, log0, replies0, log, replies, batch, offset, response)
    requires offset < |subscribers|
    requires end == if offset + BatchSize <= |subscribers| then offset + BatchSize else |subscribers|
    ensures batch < |Chunks(subscribers)| && Chunks(subscribers)[batch] == subscribers[offset..end]
    ensures Chunks(subscribers)[batch + 1..] == Chunks(subscribers[end..])
    ensures end < offset + BatchSize ==> |Chunks(subscribers)| == batch + 1
    ensures log + [SendRequest(d, subscribers[offset..end])] == log0 + SendRequests(d, Chunks(subscribers)[..batch + 1])
    ensures Drop(replies, 1) == Drop(replies0, batch + 1)
  {
    var all := Chunks(subscribers);
    var slice := subscribers[offset..end];
    NextBatch(subscribers, batch, end);
    assert all[..batch + 1] == all[..batch] + [slice];
    SendRequestsSnoc(d, all[..batch], slice);
    DropTwice(replies0, batch, 1);
  }

  /** The batch's reply is an exception: the run ends with it. */
  lemma LoopFails(
    d: Dispatch, subscribers: seq<string>, log0: seq<HttpRequest>, replies0: seq<HttpReply>,
    log: seq<HttpRequest>, replies: seq<HttpReply>, batch: nat, offset: nat, response: map<string, string>, end: nat)
    requires LoopState(d, subscribers, log0, replies0, log, replies, batch, offset, response)
    requires offset < |subscribers|
    requires end == if offset + BatchSize <= |subscribers| then offset + BatchSize else |subscribers|
    requires BatchResult(ReplyAt(replies, 0), d.options.roundTrip).Failure?
    ensures SentInBatches(d, subscribers, log0, replies0, log + [SendRequest(d, subscribers[offset..end])], Drop(replies, 1),
                          Failure(BatchResult(ReplyAt(replies, 0), d.options.roundTrip).error))
  {
    var all := Chunks(subscribers);
    var roundTrip := d.options.roundTrip;
    LoopAdvances(d, subscribers, log0, replies0, log, replies, batch, offset, response, end);
    OutcomeStep(|all| - batch, replies, roundTrip, response);
    var e := BatchResult(ReplyAt(replies, 0), roundTrip).error;
    assert Issued(|all|, replies0, roundTrip) == batch + 1;
    assert Outcome(|all|, replies0, roundTrip, map[]) == Failure(e);
  }

  /** A successful short batch was the last one: the run ends with what it collected. */
  lemma LoopFinishes(
    d: Dispatch, subscribers: seq<string>, log0: seq<HttpRequest>, replies0: seq<HttpReply>,
    log: seq<HttpRequest>, replies: seq<HttpReply>, batch: nat, offset: nat, response: map<string, string>, end: nat)
    requires LoopState(d, subscribers, log0, replies0, log, replies, batch, offset, response)
    requires offset < |subscribers|
    requires end == if offset + BatchSize <= |subscribers| then offset + BatchSize else |subscribers|
    requires end < offset + BatchSize
    requires BatchResult(ReplyAt(replies, 0), d.options.roundTrip).Success?
    ensures SentInBatches(d, subscribers, log0, replies0, log + [SendRequest(d, subscribers[offset..end])], Drop(replies, 1),
                          Finish(Success(Absorb(response, BatchResult(ReplyAt(replies, 0), d.options.roundTrip).value))))
  {
    var all := Chunks(subscribers);
    LoopAdvances(d, subscribers, log0, replies0, log, replies, batch, offset, response, end);
    OutcomeStep(|all| - batch, replies, d.options.roundTrip, response);
    assert all[..batch + 1] == all;
  }

  /** A successful full batch: the loop goes on with the next one. */
  lemma LoopContinues(
    d: Dispatch, subscribers: seq<string>, log0: seq<HttpRequest>, replies0: seq<HttpReply>,
    log: seq<HttpRequest>, replies: seq<HttpReply>, batch: nat, offset: nat, response: map<string, string>)
    requires LoopState(d, subscribers, log0, replies0, log, replies, batch, offset, response)
    requires offset + BatchSize <= |subscribers|
    requires BatchResult(ReplyAt(replies, 0), d.options.roundTrip).Success?
    ensures LoopState(d, subscribers, log0, replies0,
                      log + [SendRequest(d, subscribers[offset..offset + BatchSize])], Drop(replies, 1),
                      batch + 1, offset + BatchSize, Absorb(response, BatchResult(ReplyAt(replies, 0), d.options.roundTrip).value))
  {
    LoopAdvances(d, subscribers, log0, replies0, log, replies, batch, offset, response, offset + BatchSize);
    OutcomeStep(|Chunks(subscribers)| - batch, replies, d.options.roundTrip, response);
  }

  /** No subscriber left: the run has finished with what it collected. */
  lemma LoopEnds(
    d: Dispatch, subscribers: seq<string>, log0: seq<HttpRequest>, replies0: seq<HttpReply>,
    log: seq<HttpRequest>, replies: seq<HttpReply>, batch: nat, offset: nat, response: map<string, string>)
    requires LoopState(d, subscribers, log0, replies0, log, replies, batch, offset, response)
    requires offset >= |subscribers|
    ensures SentInBatches(d, subscribers, log0, replies0, log, replies, Finish(Success(response)))
  {
    var all := Chunks(subscribers);
    assert subscribers[offset..] == [];
    assert all[..batch] == all;
  }

  /** The subscriber lists the requests carry, read back from `DesMobile`. */
  function DesMobileLists(requests: seq<HttpRequest>): (lists: seq<seq<string>>)
    ensures |lists| == |requests|
    ensures forall i :: 0 <= i < |requests| && requests[i].Post? ==> lists[i] == Split(',', requests[i].form.desMobile)
  {
    if requests == [] then []
    else [if requests[0].Post? then Split(',', requests[0].form.desMobile) else []] + DesMobileLists(requests[1..])
  }

  /**
   * Taken together, the requests for all batches address every subscriber
   * once, in the order given (numbers containing no comma).
   */
  lemma EveryRecipientAddressed(d: Dispatch, subscribers: seq<string>)
    requires forall i :: 0 <= i < |subscribers| ==> ',' !in subscribers[i]
    ensures Flatten(DesMobileLists(SendRequests(d, Chunks(subscribers)))) == subscribers
  {
    var batches := Chunks(subscribers);
    var lists := DesMobileLists(SendRequests(d, batches));
    ChunkSizes(subscribers);
    SendRequestsAt(d, batches);
    forall i | 0 <= i < |batches|
      ensures lists[i] == batches[i]
    {
      ChunkAt(subscribers, i);
      DesMobileRoundTrip(d.account, d.password, d.settings, batches[i], d.message, d.options, d.defaultExpiry);
    }
    assert lists == batches;
    FlattenChunks(subscribers);
  }
}

/**
 * The batching of `sendMessage`: the subscriber list cut into consecutive
 * slices of at most 200, and the outcome of sending them one after another.
 */
module Batching {
  import opened Wrappers
  import opened GuoduTypes
  import opened Responses
  import opened Transport

  /** The provider takes at most this many subscribers per request. */
  const BatchSize := 200

  /** Consecutive slices of `BatchSize`, the last one possibly shorter; no empty slice. */
  function Chunks<T>(s: seq<T>): seq<seq<T>>
    decreases |s|
  {
    if |s| <= BatchSize then (if s == [] then [] else [s])
    else [s[..BatchSize]] + Chunks(s[BatchSize..])
  }

  function Flatten<T>(xss: seq<seq<T>>): seq<T> {
    if xss == [] then [] else xss[0] + Flatten(xss[1..])
  }

  /** The batches cover the list exactly, in order. */
  lemma {:induction false} FlattenChunks<T>(s: seq<T>)
    ensures Flatten(Chunks(s)) == s
    decreases |s|
  {
    if |s| > BatchSize {
      FlattenChunks(s[BatchSize..]);
      assert Chunks(s)[1..] == Chunks(s[BatchSize..]);
    } else if s != [] {
      assert Flatten(Chunks(s)) == s + Flatten([]);
    }
  }

  /** Every batch holds 1 to 200 subscribers, and every batch but the last exactly 200. */
  lemma {:induction false} ChunkSizes<T>(s: seq<T>)
    ensures forall i :: 0 <= i < |Chunks(s)| ==> 1 <= |Chunks(s)[i]| <= BatchSize
    ensures forall i :: 0 <= i < |Chunks(s)| - 1 ==> |Chunks(s)[i]| == BatchSize
    decreases |s|
  {
    if |s| > BatchSize {
      ChunkSizes(s[BatchSize..]);
      assert forall i :: 1 <= i < |Chunks(s)| ==> Chunks(s)[i] == Chunks(s[BatchSize..])[i - 1];
    }
  }

  /** There are ceil(n / 200) batches. */
  lemma {:induction false} ChunkCount<T>(s: seq<T>)
    ensures |Chunks(s)| == (|s| + BatchSize - 1) / BatchSize
    decreases |s|
  {
    if |s| > BatchSize {
      ChunkCount(s[BatchSize..]);
    }
  }

  /** Batch `i` is the slice from `200 * i` up to `200 * (i + 1)` or the end of the list. */
  lemma {:induction false} ChunkAt<T>(s: seq<T>, i: nat)
    requires i < |Chunks(s)|
    ensures i * BatchSize < |s|
    ensures Chunks(s)[i] == s[i * BatchSize..if (i + 1) * BatchSize <= |s| then (i + 1) * BatchSize else |s|]
    decreases i
  {
    if i > 0 {
      var tail := s[BatchSize..];
      assert Chunks(s)[i] == Chunks(tail)[i - 1];
      ChunkAt(tail, i - 1);
    }
  }

  /**
   * The step `sendMessage` takes: when the batches from `b` on are those of
   * the list from `200 * b` on, batch `b` is the next slice of at most 200,
   * and the batches after it are those of the list after that slice.
   */
  lemma NextBatch<T>(s: seq<T>, b: nat, end: nat)
    requires b * BatchSize < |s|
    requires end == if b * BatchSize + BatchSize <= |s| then b * BatchSize + BatchSize else |s|
    requires b <= |Chunks(s)| && Chunks(s)[b..] == Chunks(s[b * BatchSize..])
    ensures b < |Chunks(s)| && Chunks(s)[b] == s[b * BatchSize..end]
    ensures Chunks(s)[b + 1..] == Chunks(s[end..])
    ensures end < b * BatchSize + BatchSize ==> |Chunks(s)| == b + 1
  {
    var rest := s[b * BatchSize..];
    if |rest| > BatchSize {
      assert rest[BatchSize..] == s[end..];
      assert Chunks(rest) == [rest[..BatchSize]] + Chunks(rest[BatchSize..]);
    } else {
      assert s[end..] == [];
    }
    assert Chunks(s)[b + 1..] == Chunks(rest)[1..];
  }

  /** 300 subscribers go out as 200 and then 100. */
  lemma ThreeHundred<T>(s: seq<T>)
    requires |s| == 300
    ensures Chunks(s) == [s[..200], s[200..]]
  {
    assert Chunks(s[200..]) == [s[200..]];
  }

  /**
   * The outcome of sending `n` batches when the client replies from
   * `replies`: the first failing batch's exception, or the union of the id
   * maps (earlier batches win) on top of `acc`.
   */
  function Outcome(n: nat, replies: seq<HttpReply>, roundTrip: bool, acc: map<string, string>): Result<map<string, string>, Exception>
    decreases n
  {
    if n == 0 then Success(acc)
    else match BatchResult(ReplyAt(replies, 0), roundTrip)
      case Failure(e) => Failure(e)
      case Success(ids) => Outcome(n - 1, Drop(replies, 1), roundTrip, Absorb(acc, ids))
  }

  /** How many requests sending `n` batches makes: up to and including the first failing one. */
  function Issued(n: nat, replies: seq<HttpReply>, roundTrip: bool): (k: nat)
    ensures k <= n
    ensures n > 0 ==> k >= 1
    decreases n
  {
    if n == 0 then 0
    else if BatchResult(ReplyAt(replies, 0), roundTrip).Failure? then 1
    else 1 + Issued(n - 1, Drop(replies, 1), roundTrip)
  }

  /** One batch further: a failing reply ends the run, a successful one moves on to the next batch. */
  lemma OutcomeStep(n: nat, replies: seq<HttpReply>, roundTrip: bool, acc: map<string, string>)
    requires n > 0
    ensures var first := BatchResult(ReplyAt(replies, 0), roundTrip);
            first.Failure? ==> Outcome(n, replies, roundTrip, acc) == Failure(first.error) && Issued(n, replies, roundTrip) == 1
    ensures var first := BatchResult(ReplyAt(replies, 0), roundTrip);
            first.Success? ==>
              && Outcome(n, replies, roundTrip, acc) == Outcome(n - 1, Drop(replies, 1), roundTrip, Absorb(acc, first.value))
              && Issued(n, replies, roundTrip) == 1 + Issued(n - 1, Drop(replies, 1), roundTrip)
  {
  }

  /** The send succeeds exactly when every batch's reply is a success. */
  lemma {:induction false} OutcomeSucceedsIffEveryBatch(n: nat, replies: seq<HttpReply>, roundTrip: bool, acc: map<string, string>)
    ensures Outcome(n, replies, roundTrip, acc).Success?
            <==> forall k :: 0 <= k < n ==> BatchResult(ReplyAt(replies, k), roundTrip).Success?
    decreases n
  {
    if n > 0 && BatchResult(ReplyAt(replies, 0), roundTrip).Success? {
      var ids := BatchResult(ReplyAt(replies, 0), roundTrip).value;
      OutcomeSucceedsIffEveryBatch(n - 1, Drop(replies, 1), roundTrip, Absorb(acc, ids));
      assert forall k :: 1 <= k < n ==> ReplyAt(replies, k) == ReplyAt(Drop(replies, 1), k - 1);
    }
  }

  /**
   * When batch `k` is the first to fail, its exception is the outcome and no
   * request is made for any batch after it.
   */
  lemma {:induction false} FirstFailureStops(n: nat, replies: seq<HttpReply>, roundTrip: bool, acc: map<string, string>, k: nat)
    requires k < n
    requires forall j :: 0 <= j < k ==> BatchResult(ReplyAt(replies, j), roundTrip).Success?
    requires BatchResult(ReplyAt(replies, k), roundTrip).Failure?
    ensures Outcome(n, replies, roundTrip, acc) == Failure(BatchResult(ReplyAt(replies, k), roundTrip).error)
    ensures Issued(n, replies, roundTrip) == k + 1
    decreases k
  {
    if k > 0 {
      assert BatchResult(ReplyAt(replies, 0), roundTrip).Success?;
      var ids := BatchResult(ReplyAt(replies, 0), roundTrip).value;
      assert forall j :: 0 <= j < k ==> ReplyAt(Drop(replies, 1), j) == ReplyAt(replies, j + 1);
      FirstFailureStops(n - 1, Drop(replies, 1), roundTrip, Absorb(acc, ids), k - 1);
    }
  }

  /** A successful send made one request per batch. */
  lemma {:induction false} SuccessIssuesEveryBatch(n: nat, replies: seq<HttpReply>, roundTrip: bool, acc: map<string, string>)
    requires Outcome(n, replies, roundTrip, acc).Success?
    ensures Issued(n, replies, roundTrip) == n
    decreases n
  {
    if n > 0 {
      var ids := BatchResult(ReplyAt(replies, 0), roundTrip).value;
      SuccessIssuesEveryBatch(n - 1, Drop(replies, 1), roundTrip, Absorb(acc, ids));
    }
  }

  /** Ids already collected are never overwritten by a later batch. */
  lemma {:induction false} EarlierBatchesWin(n: nat, replies: seq<HttpReply>, roundTrip: bool, acc: map<string, string>)
    requires Outcome(n, replies, roundTrip, acc).Success?
    ensures forall key :: key in acc ==>
              key in Outcome(n, replies, roundTrip, acc).value && Outcome(n, replies, roundTrip, acc).value[key] == acc[key]
    decreases n
  {
    if n > 0 {
      var ids := BatchResult(ReplyAt(replies, 0), roundTrip).value;
      EarlierBatchesWin(n - 1, Drop(replies, 1), roundTrip, Absorb(acc, ids));
    }
  }

  /** The ids the reply to batch `j` contributes: none unless it is a success with an id map. */
  function IdsAt(replies: seq<HttpReply>, roundTrip: bool, j: nat): map<string, string> {
    match BatchResult(ReplyAt(replies, j), roundTrip)
    case Success(Some(ids)) => ids
    case _ => map[]
  }

  lemma IdsShift(replies: seq<HttpReply>, roundTrip: bool, j: nat)
    ensures IdsAt(Drop(replies, 1), roundTrip, j) == IdsAt(replies, roundTrip, j + 1)
  {
    assert ReplyAt(Drop(replies, 1), j) == ReplyAt(replies, 1 + j);
  }

  /** The id maps of the replies to `n` batches, in order. */
  function BatchIds(n: nat, replies: seq<HttpReply>, roundTrip: bool): (ms: seq<map<string, string>>)
    ensures |ms| == n
  {
    seq(n, j requires 0 <= j < n => IdsAt(replies, roundTrip, j))
  }

  lemma BatchIdsShift(n: nat, replies: seq<HttpReply>, roundTrip: bool)
    requires 0 < n
    ensures BatchIds(n, replies, roundTrip)[1..] == BatchIds(n - 1, Drop(replies, 1), roundTrip)
  {
    var ms := BatchIds(n, replies, roundTrip);
    forall j | 0 <= j < n - 1
      ensures ms[1..][j] == BatchIds(n - 1, Drop(replies, 1), roundTrip)[j]
    {
      IdsShift(replies, roundTrip, j);
    }
  }

  /** `acc + ms[0] + ms[1] + …` with PHP's `+`: on a shared key the earliest map wins. */
  function UnionAll(acc: map<string, string>, ms: seq<map<string, string>>): map<string, string>
    decreases |ms|
  {
    if ms == [] then acc else UnionAll(ArrayUnion(acc, ms[0]), ms[1..])
  }

  /** The union holds the keys of `acc` and of every map, and nothing else. */
  lemma {:induction false} UnionAllKeys(acc: map<string, string>, ms: seq<map<string, string>>)
    ensures forall key :: key in UnionAll(acc, ms) <==> key in acc || exists j :: 0 <= j < |ms| && key in ms[j]
    decreases |ms|
  {
    if ms != [] {
      UnionAllKeys(ArrayUnion(acc, ms[0]), ms[1..]);
      assert forall j :: 1 <= j < |ms| ==> ms[1..][j - 1] == ms[j];
      forall key | exists j :: 0 <= j < |ms| && key in ms[j]
        ensures key in UnionAll(acc, ms)
      {
        var j :| 0 <= j < |ms| && key in ms[j];
        if j > 0 {
          assert key in ms[1..][j - 1];
        }
      }
    }
  }

  /** An entry of `acc` survives every later map. */
  lemma {:induction false} UnionAllKeeps(acc: map<string, string>, ms: seq<map<string, string>>)
    ensures forall key :: key in acc ==> key in UnionAll(acc, ms) && UnionAll(acc, ms)[key] == acc[key]
    decreases |ms|
  {
    if ms != [] {
      UnionAllKeeps(ArrayUnion(acc, ms[0]), ms[1..]);
    }
  }

  /** A key not in `acc` takes its value from the earliest map that holds it. */
  lemma {:induction false} UnionAllEarliest(acc: map<string, string>, ms: seq<map<string, string>>, key: string, j: nat)
    requires key !in acc && j < |ms| && key in ms[j]
    requires forall i :: 0 <= i < j ==> key !in ms[i]
    ensures key in UnionAll(acc, ms) && UnionAll(acc, ms)[key] == ms[j][key]
    decreases |ms|
  {
    if j == 0 {
      UnionAllKeeps(ArrayUnion(acc, ms[0]), ms[1..]);
    } else {
      assert key !in ms[0];
      UnionAllEarliest(ArrayUnion(acc, ms[0]), ms[1..], key, j - 1);
    }
  }

  /** A successful run's ids are the union of `acc` and every batch's ids, earlier ones winning. */
  lemma {:induction false} OutcomeIsUnion(n: nat, replies: seq<HttpReply>, roundTrip: bool, acc: map<string, string>)
    requires Outcome(n, replies, roundTrip, acc).Success?
    ensures Outcome(n, replies, roundTrip, acc).value == UnionAll(acc, BatchIds(n, replies, roundTrip))
    decreases n
  {
    if n > 0 {
      var ids := BatchResult(ReplyAt(replies, 0), roundTrip).value;
      var rest := Drop(replies, 1);
      OutcomeIsUnion(n - 1, rest, roundTrip, Absorb(acc, ids));
      var ms := BatchIds(n, replies, roundTrip);
      BatchIdsShift(n, replies, roundTrip);
      assert Absorb(acc, ids) == ArrayUnion(acc, ms[0]);
    }
  }

  /** A successful send collects exactly the ids of `acc` and of every batch's reply. */
  lemma OutcomeCollects(n: nat, replies: seq<HttpReply>, roundTrip: bool, acc: map<string, string>)
    requires Outcome(n, replies, roundTrip, acc).Success?
    ensures forall key :: key in Outcome(n, replies, roundTrip, acc).value
              <==> key in acc || exists j :: 0 <= j < n && key in IdsAt(replies, roundTrip, j)
  {
    OutcomeIsUnion(n, replies, roundTrip, acc);
    var ms := BatchIds(n, replies, roundTrip);
    UnionAllKeys(acc, ms);
    assert forall j :: 0 <= j < n ==> ms[j] == IdsAt(replies, roundTrip, j);
  }

  /**
   * An id not in `acc` is taken from the earliest batch whose reply holds
   * that subscriber: with PHP's `+`, later batches never overwrite it.
   */
  lemma OutcomeTakesEarliest(
    n: nat, replies: seq<HttpReply>, roundTrip: bool, acc: map<string, string>, key: string, j: nat)
    requires Outcome(n, replies, roundTrip, acc).Success?
    requires key !in acc && j < n && key in IdsAt(replies, roundTrip, j)
    requires forall i :: 0 <= i < j ==> key !in IdsAt(replies, roundTrip, i)
    ensures key in Outcome(n, replies, roundTrip, acc).value
    ensures Outcome(n, replies, roundTrip, acc).value[key] == IdsAt(replies, roundTrip, j)[key]
  {
    OutcomeIsUnion(n, replies, roundTrip, acc);
    UnionAllEarliest(acc, BatchIds(n, replies, roundTrip), key, j);
  }

  /** Without round trip a successful send collects nothing. */
  lemma {:induction false} NoRoundTripNoIds(n: nat, replies: seq<HttpReply>)
    requires Outcome(n, replies, false, map[]).Success?
    ensures Outcome(n, replies, false, map[]).value == map[]
    decreases n
  {
    if n > 0 {
      NoRoundTripNoIds(n - 1, Drop(replies, 1));
    }
  }
}

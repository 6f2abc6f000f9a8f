/** What the service makes of the provider's replies. */
module Responses {
  import opened Wrappers
  import opened GuoduTypes

  const Submitted := "短信提交成功"

  /** `RESPONSE_PHRASES`: the provider's status codes and what they mean. */
  const ResponsePhrases: map<string, string> := map[
    "00" := Submitted,  // batch
    "01" := Submitted,  // personalised
    "02" := "IP限制",
    "03" := Submitted,  // single
    "04" := "用户名错误",
    "05" := "密码错误",
    "06" := "自定义短信手机号个数与内容个数不相等",
    "07" := "发送时间错误",
    "08" := "短信包含敏感内容",
    "09" := "同天内不能向用户重复发送该短信内容",
    "10" := "扩展号错误",
    "11" := "余额不足",
    "-1" := "短信服务器异常"
  ]

  /** The codes a send reply may carry when the messages were accepted. */
  predicate IsSuccessCode(code: string) {
    code == "00" || code == "01" || code == "03"
  }

  /** The message of the exception for a failing code: its phrase, or a generic one naming the code. */
  function ErrorPhrase(code: string): string {
    if code in ResponsePhrases then ResponsePhrases[code] else "短信发送异常(" + code + ")"
  }

  /**
   * The table and the success test agree: exactly the success codes read
   * 短信提交成功, so no exception raised for a failing code says the message went out.
   */
  lemma PhraseMeansSuccess(code: string)
    ensures code in ResponsePhrases ==> (ResponsePhrases[code] == Submitted <==> IsSuccessCode(code))
    ensures !IsSuccessCode(code) ==> ErrorPhrase(code) != Submitted
  {
    if code !in ResponsePhrases {
      assert ErrorPhrase(code)[2] != Submitted[2];
    }
  }

  /** The code "05" is reported as a wrong password. */
  lemma WrongPasswordPhrase()
    ensures !IsSuccessCode("05") && ErrorPhrase("05") == "密码错误"
  {
  }

  /**
   * The `array_reduce` over the `<message>` elements: each `desmobile` is
   * assigned its `msgid` in document order.
   */
  function IdMap(entries: seq<MessageEntry>): (m: map<string, string>)
    decreases |entries|
  {
    if entries == [] then map[]
    else
      var last := entries[|entries| - 1];
      IdMap(entries[..|entries| - 1])[last.desmobile := last.msgid]
  }

  /** The id map holds every `desmobile` of the reply and nothing else. */
  lemma {:induction false} IdMapKeys(entries: seq<MessageEntry>)
    ensures forall k :: k in IdMap(entries) <==> exists i :: 0 <= i < |entries| && entries[i].desmobile == k
  {
    if entries != [] {
      var n := |entries| - 1;
      IdMapKeys(entries[..n]);
      assert forall i :: 0 <= i < n ==> entries[..n][i] == entries[i];
    }
  }

  /** Each `desmobile` is mapped to the `msgid` of its last occurrence: later duplicates win. */
  lemma {:induction false} IdMapLastWins(entries: seq<MessageEntry>)
    ensures forall i :: 0 <= i < |entries| && (forall j :: i < j < |entries| ==> entries[j].desmobile != entries[i].desmobile)
              ==> entries[i].desmobile in IdMap(entries) && IdMap(entries)[entries[i].desmobile] == entries[i].msgid
  {
    if entries != [] {
      var n := |entries| - 1;
      IdMapLastWins(entries[..n]);
      assert forall i :: 0 <= i < n ==> entries[..n][i] == entries[i];
    }
  }

  /** Two distinct subscribers in one reply give a map of exactly those two ids. */
  lemma TwoSubscriberReply()
    ensures IdMap([MessageEntry("13800138000", "20081104123453654785"), MessageEntry("13800138001", "20081104123453654786")])
            == map["13800138000" := "20081104123453654785", "13800138001" := "20081104123453654786"]
  {
    var e := [MessageEntry("13800138000", "20081104123453654785"), MessageEntry("13800138001", "20081104123453654786")];
    assert e[..1][..0] == [];
  }

  /**
   * The fold as written: the JSON round trip gives `message` as one object,
   * an array, or, with no `<message>` element at all, null, which is wrapped
   * as `[null]`; a null element contributes the key "" with value null (None).
   */
  function IdMapAsWritten(entries: seq<MessageEntry>): map<string, Option<string>> {
    if entries == [] then FoldIds([None])
    else FoldIds(seq(|entries|, i requires 0 <= i < |entries| => Some(entries[i])))
  }

  function FoldIds(elements: seq<Option<MessageEntry>>): map<string, Option<string>>
    decreases |elements|
  {
    if elements == [] then map[]
    else
      var last := elements[|elements| - 1];
      var key := if last.Some? then last.value.desmobile else "";
      var id := if last.Some? then Some(last.value.msgid) else None;
      FoldIds(elements[..|elements| - 1])[key := id]
  }

  /**
   * With round trip on, a success reply without `<message>` elements yields
   * the non-empty map {"" => null} as written, where no ids at all were meant.
   */
  lemma EmptyReplyAsWritten()
    ensures IdMapAsWritten([]) == map["" := None]
    ensures IdMap([]) == map[]
  {
  }

  /** Apart from that case the fold as written and `IdMap` agree. */
  lemma {:induction false} AsWrittenAgreesOnMessages(entries: seq<MessageEntry>)
    ensures entries != [] ==> IdMapAsWritten(entries) == map k | k in IdMap(entries) :: Some(IdMap(entries)[k])
  {
    if entries != [] {
      FoldAgrees(entries);
    }
  }

  lemma {:induction false} FoldAgrees(entries: seq<MessageEntry>)
    ensures FoldIds(seq(|entries|, i requires 0 <= i < |entries| => Some(entries[i])))
            == map k | k in IdMap(entries) :: Some(IdMap(entries)[k])
    decreases |entries|
  {
    var elements := seq(|entries|, i requires 0 <= i < |entries| => Some(entries[i]));
    if entries != [] {
      var n := |entries| - 1;
      FoldAgrees(entries[..n]);
      assert elements[..n] == seq(n, i requires 0 <= i < n => Some(entries[..n][i]));
    }
  }

  /**
   * `parseSendResponse`: a status other than 200 or a failing code is an
   * exception; otherwise nothing, or with round trip the id map.
   */
  function ParseSendResponse(status: int, body: Document, roundTrip: bool): (r: Result<Option<map<string, string>>, Exception>)
    ensures status != 200 ==> r == Failure(ServiceError(SendServiceDown))
    ensures status == 200 && !IsSuccessCode(body.code) ==> r == Failure(ServiceError(ErrorPhrase(body.code)))
    ensures r.Success? <==> status == 200 && IsSuccessCode(body.code)
    ensures r.Success? && !roundTrip ==> r.value == None
    ensures r.Success? && roundTrip ==> r.value == Some(IdMap(body.messages))
  {
    if status != 200 then Failure(ServiceError(SendServiceDown))
    else if !IsSuccessCode(body.code) then Failure(ServiceError(ErrorPhrase(body.code)))
    else if !roundTrip then Success(None)
    else Success(Some(IdMap(body.messages)))
  }

  /** `doSendMessage`'s outcome for one batch, given what the HTTP client did. */
  function BatchResult(reply: HttpReply, roundTrip: bool): (r: Result<Option<map<string, string>>, Exception>)
    ensures reply.Raised? ==> r == Failure(TransportError(reply.reason))
    ensures reply.Response? ==> r == ParseSendResponse(reply.status, reply.body, roundTrip)
  {
    match reply
    case Raised(reason) => Failure(TransportError(reason))
    case Response(status, body) => ParseSendResponse(status, body, roundTrip)
  }

  /** PHP's array union `left + right`: on a key in both, `left` wins. */
  function ArrayUnion(left: map<string, string>, right: map<string, string>): (r: map<string, string>)
    ensures r.Keys == left.Keys + right.Keys
    ensures forall k :: k in left ==> r[k] == left[k]
    ensures forall k :: k in right && k !in left ==> r[k] == right[k]
  {
    right + left
  }

  /** Adds one batch's ids to those collected so far, unless the batch returned none; collected ids take precedence. */
  function Absorb(acc: map<string, string>, batch: Option<map<string, string>>): (r: map<string, string>)
    ensures batch.None? ==> r == acc
    ensures batch.Some? ==> r == ArrayUnion(acc, batch.value)
  {
    if batch.Some? && batch.value != map[] then ArrayUnion(acc, batch.value) else acc
  }

  /** The result of `sendMessage`: null when no id was collected, the collected ids otherwise. */
  function Finish(outcome: Result<map<string, string>, Exception>): (r: Result<Option<map<string, string>>, Exception>)
    ensures outcome.Failure? ==> r == Failure(outcome.error)
    ensures outcome.Success? ==> r.Success? && (r.value.None? <==> outcome.value == map[])
    ensures outcome.Success? && r.value.Some? ==> r.value.value == outcome.value
  {
    match outcome
    case Failure(e) => Failure(e)
    case Success(m) => Success(if m == map[] then None else Some(m))
  }

  /** `queryQuota` after its request: a status other than 200 fails, otherwise the `<rcode>` number. */
  function QuotaResult(reply: HttpReply): (r: Result<int, Exception>)
    ensures reply.Raised? ==> r == Failure(TransportError(reply.reason))
    ensures reply.Response? && reply.status != 200 ==> r == Failure(ServiceError(QuotaServiceDown))
    ensures r.Success? <==> reply.Response? && reply.status == 200
    ensures r.Success? ==> r.value == reply.body.rcode
  {
    match reply
    case Raised(reason) => Failure(TransportError(reason))
    case Response(status, body) =>
      if status != 200 then Failure(ServiceError(QuotaServiceDown)) else Success(body.rcode)
  }
}

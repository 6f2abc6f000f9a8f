/** The requests the service builds: the send form and the quota query URL. */
module Requests {
  import opened Wrappers
  import opened PhpStrings
  import opened GuoduTypes

  /** The constructor's `array_merge` of the default URLs with the given options. */
  function MergeDefaults(options: ServiceOptions): (s: Settings)
    ensures options.sendUrl.None? ==> s.sendUrl == SendUrl
    ensures options.quotaUrl.None? ==> s.quotaUrl == QuotaUrl
    ensures options.sendUrl.Some? ==> s.sendUrl == options.sendUrl.value
    ensures options.quotaUrl.Some? ==> s.quotaUrl == options.quotaUrl.value
    ensures s.name == options.name.GetOr("") && s.affix == options.affix
  {
    Settings(options.name.GetOr(""), options.affix,
             options.sendUrl.GetOr(SendUrl), options.quotaUrl.GetOr(QuotaUrl))
  }

  /** `ContentType`: the requested type when it is 8 or 15, otherwise 8. */
  function ContentType(msgType: Option<int>): (t: int)
    ensures t == SendTypePlain || t == SendTypeLong
    ensures t == SendTypeLong <==> msgType == Some(SendTypeLong)
  {
    var requested := msgType.GetOr(SendTypePlain);
    if requested == SendTypePlain || requested == SendTypeLong then requested else SendTypePlain
  }

  /**
   * `buildRequestForSending`: the form posted for one batch. `defaultExpiry`
   * stands for `date('YmdHis', time() + 86400)`, read from the clock.
   */
  function BuildRequestForSending(
    account: string, password: string, settings: Settings,
    batch: seq<string>, message: string, options: SendOptions, defaultExpiry: string): (f: SendForm)
    ensures f.operId == account && f.operPass == password && f.appendId == settings.affix
    ensures f.sendTime == options.sendTime && f.content == message
    ensures f.validTime == options.expiresAt.GetOr(defaultExpiry)
    ensures f.contentType == SendTypeLong <==> options.msgType == Some(SendTypeLong)
    ensures f.contentType == SendTypePlain <==> options.msgType != Some(SendTypeLong)
    ensures f.desMobile == Join(',', batch)
  {
    SendForm(
      account, password, options.sendTime, options.expiresAt.GetOr(defaultExpiry),
      settings.affix, Join(',', batch), message, ContentType(options.msgType))
  }

  /** `DesMobile` gives a non-empty batch back when split at commas, as long as no number holds one. */
  lemma DesMobileRoundTrip(
    account: string, password: string, settings: Settings,
    batch: seq<string>, message: string, options: SendOptions, defaultExpiry: string)
    requires batch != []
    requires forall i :: 0 <= i < |batch| ==> ',' !in batch[i]
    ensures Split(',', BuildRequestForSending(account, password, settings, batch, message, options, defaultExpiry).desMobile)
            == batch
  {
    SplitJoin(',', batch);
  }

  /** What the forms of one `send` call share: all of the form but the batch. */
  datatype Dispatch = Dispatch(
    account: string, password: string, settings: Settings,
    message: string, options: SendOptions, defaultExpiry: string)

  /** The POST `doSendMessage` issues for one batch. */
  function SendRequest(d: Dispatch, batch: seq<string>): HttpRequest {
    Post(d.settings.sendUrl,
         BuildRequestForSending(d.account, d.password, d.settings, batch, d.message, d.options, d.defaultExpiry))
  }

  /** The POSTs for a sequence of batches, one per batch, in order. */
  function SendRequests(d: Dispatch, batches: seq<seq<string>>): (rs: seq<HttpRequest>)
    decreases |batches|
  {
    if batches == [] then []
    else SendRequests(d, batches[..|batches| - 1]) + [SendRequest(d, batches[|batches| - 1])]
  }

  lemma SendRequestsSnoc(d: Dispatch, batches: seq<seq<string>>, batch: seq<string>)
    ensures SendRequests(d, batches + [batch]) == SendRequests(d, batches) + [SendRequest(d, batch)]
  {
    assert (batches + [batch])[..|batches|] == batches;
  }

  /** One request per batch, the `i`-th for the `i`-th batch. */
  lemma {:induction false} SendRequestsAt(d: Dispatch, batches: seq<seq<string>>)
    ensures |SendRequests(d, batches)| == |batches|
    ensures forall i :: 0 <= i < |batches| ==> SendRequests(d, batches)[i] == SendRequest(d, batches[i])
    decreases |batches|
  {
    if batches != [] {
      var n := |batches| - 1;
      SendRequestsAt(d, batches[..n]);
    }
  }

  /** `http_build_query`: `key=value` pairs joined by `&` (percent-encoding is not modelled). */
  function BuildQuery(params: seq<(string, string)>): string {
    if params == [] then ""
    else if |params| == 1 then params[0].0 + "=" + params[0].1
    else params[0].0 + "=" + params[0].1 + "&" + BuildQuery(params[1..])
  }

  /**
   * `buildHttpGetUrl`: add the query to `base` after `?` when it has none, right
   * after its `?` when that `?` is its last character, and after `&` otherwise.
   */
  function BuildHttpGetUrl(base: string, params: seq<(string, string)>): (url: string)
    ensures params == [] ==> url == base
    ensures |url| >= |base| && url[..|base|] == base
  {
    if params == [] then base
    else match IndexOf(base, '?')
      case None => base + "?" + BuildQuery(params)
      case Some(i) =>
        if i == |base| - 1 then base + BuildQuery(params)
        else base + "&" + BuildQuery(params)
  }

  /** The part of a URL before its first `?`. */
  function PathOf(url: string): string {
    match IndexOf(url, '?')
    case None => url
    case Some(i) => url[..i]
  }

  /** The part of a URL after its first `?` ("" when there is none). */
  function QueryOf(url: string): string {
    match IndexOf(url, '?')
    case None => ""
    case Some(i) => url[i + 1..]
  }

  /**
   * What a server reads back from a URL built with at least one parameter:
   * the path is untouched, and the parameters follow whatever query the base
   * already had, separated by `&` only when that query is not empty.
   */
  lemma GetUrlKeepsPathExtendsQuery(base: string, params: seq<(string, string)>)
    requires params != []
    ensures PathOf(BuildHttpGetUrl(base, params)) == PathOf(base)
    ensures QueryOf(BuildHttpGetUrl(base, params))
            == if QueryOf(base) == "" then BuildQuery(params) else QueryOf(base) + "&" + BuildQuery(params)
  {
    var url := BuildHttpGetUrl(base, params);
    var q := BuildQuery(params);
    match IndexOf(base, '?')
    case None =>
      assert url == base + "?" + q;
      assert url[..|base|] == base;
      FirstIndexUnique(url, '?', |base|);
      assert url[|base| + 1..] == q;
    case Some(i) =>
      assert url[..i] == base[..i];
      FirstIndexUnique(url, '?', i);
      if i == |base| - 1 {
        assert url[i + 1..] == q;
      } else {
        assert url[i + 1..] == base[i + 1..] + "&" + q;
      }
  }

  /** The quota URL asked for by `queryQuota`. */
  function QuotaRequestUrl(account: string, password: string, settings: Settings): string {
    BuildHttpGetUrl(settings.quotaUrl, [("OperID", account), ("OperPass", password)])
  }

  /**
   * For a quota URL without `?` (DefaultQuotaUrlHasNoQuery shows the default
   * one has none) the account and password follow a `?`, as
   * `OperID=<account>&OperPass=<password>`.
   */
  lemma QuotaUrlShape(account: string, password: string, settings: Settings)
    requires '?' !in settings.quotaUrl
    ensures QuotaRequestUrl(account, password, settings)
            == settings.quotaUrl + "?OperID=" + account + "&OperPass=" + password
  {
    var params := [("OperID", account), ("OperPass", password)];
    assert BuildQuery(params) == "OperID=" + account + "&OperPass=" + password by {
      assert params[1..] == [("OperPass", password)];
    }
  }

  lemma NoQueryInConcat(a: string, b: string)
    requires '?' !in a && '?' !in b
    ensures '?' !in a + b
  {
    forall i | 0 <= i < |a + b|
      ensures (a + b)[i] != '?'
    {
      if i >= |a| {
        assert (a + b)[i] == b[i - |a|];
      }
    }
  }

  /** The default quota URL has no `?`. */
  lemma DefaultQuotaUrlHasNoQuery()
    ensures '?' !in QuotaUrl
  {
    var host, path := "http://221.179.180.158:8081", "/QxtSms_surplus/surplus";
    assert QuotaUrl == host + path by {
      assert |QuotaUrl| == |host| + |path|;
    }
    HostHasNoQuery(host);
    PathHasNoQuery(path);
    NoQueryInConcat(host, path);
  }

  lemma HostHasNoQuery(host: string)
    requires host == "http://221.179.180.158:8081"
    ensures '?' !in host
  {
    var a, b := "http://221.1", "79.180.158:8081";
    assert host == a + b;
    assert '?' !in a;
    assert '?' !in b;
    NoQueryInConcat(a, b);
  }

  lemma PathHasNoQuery(path: string)
    requires path == "/QxtSms_surplus/surplus"
    ensures '?' !in path
  {
    var a, b := "/QxtSms_sur", "plus/surplus";
    assert path == a + b;
    assert '?' !in a;
    assert '?' !in b;
    NoQueryInConcat(a, b);
  }

  /**
   * With the default quota URL, as in a service built without a `quota_url`
   * option, the account and password follow a `?` after that URL.
   */
  lemma DefaultQuotaRequestUrl(account: string, password: string, options: ServiceOptions)
    requires options.quotaUrl.None?
    ensures QuotaRequestUrl(account, password, MergeDefaults(options))
            == QuotaUrl + "?OperID=" + account + "&OperPass=" + password
  {
    DefaultQuotaUrlHasNoQuery();
    QuotaUrlShape(account, password, MergeDefaults(options));
  }
}

/**
 * The values the Guodu SMS service works with: its constants, its
 * configuration and per-call options, the exceptions it throws, the
 * form it posts, the parsed XML replies and the HTTP exchange.
 */
module GuoduTypes {
  import opened Wrappers

  const SendUrl := "http://221.179.180.158:9007/QxtSms/QxtFirewall"
  const QuotaUrl := "http://221.179.180.158:8081/QxtSms_surplus/surplus"

  /** Message types: 普通短信 (plain) and 长短信 (long). */
  const SendTypePlain := 8
  const SendTypeLong := 15

  /** Where the merchant name goes in the message. */
  const NamePosNone := 0
  const NamePosAppend := 1
  const NamePosPrepend := 2

  /** At most this many characters, as the provider demands. */
  const MessageLimit := 500

  /** The fixed exception messages. */
  const NoSubscriber := "短信接收用户未指定"
  const EmptyMessage := "短信内容为空"
  const MessageTooLong := "短信内容过长"
  const SendServiceDown := "短信服务异常"
  const QuotaServiceDown := "短信服务器异常"

  /**
   * What `send` and `queryQuota` throw: `\InvalidArgumentException` for bad
   * input, `\Exception` for a bad reply, and whatever the HTTP client throws.
   */
  datatype Exception =
    | InvalidArgument(message: string)
    | ServiceError(message: string)
    | TransportError(reason: string)

  /**
   * The constructor's options once merged with the default URLs. A missing
   * `name` behaves exactly like "" (it is only ever tested with `empty()`).
   */
  datatype Settings = Settings(name: string, affix: Option<string>, sendUrl: string, quotaUrl: string)

  /** The constructor's `$options`; `None` is a key that is not set. */
  datatype ServiceOptions = ServiceOptions(
    name: Option<string>, affix: Option<string>, sendUrl: Option<string>, quotaUrl: Option<string>)

  /** The `$options` of one `send` call; `None` is a key that is not set. */
  datatype SendOptions = SendOptions(
    sendTime: Option<string>,
    msgType: Option<int>,
    namePos: Option<int>,
    expiresAt: Option<string>,
    roundTrip: bool)

  /** `send`'s `$subscriber`: null, one number, or a list of numbers. */
  datatype Subscriber = Null | Number(number: string) | Numbers(numbers: seq<string>)

  /** The form fields of one send request. `Content` holds the text before its GBK transcoding. */
  datatype SendForm = SendForm(
    operId: string,
    operPass: string,
    sendTime: Option<string>,
    validTime: string,
    appendId: Option<string>,
    desMobile: string,
    content: string,
    contentType: int)

  datatype HttpRequest = Post(url: string, form: SendForm) | Get(url: string)

  /** One `<message>` of a send reply. */
  datatype MessageEntry = MessageEntry(desmobile: string, msgid: string)

  /**
   * A reply body as parsed from XML: the `<code>` text, the `<message>`
   * elements in document order, and `intval` of the `<rcode>` text (0 when absent).
   */
  datatype Document = Document(code: string, messages: seq<MessageEntry>, rcode: int)

  /** What the HTTP client gives back: an exception it throws, or a response. */
  datatype HttpReply = Raised(reason: string) | Response(status: int, body: Document)
}

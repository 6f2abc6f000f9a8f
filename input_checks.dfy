/** The checks `send` makes on its arguments, and the placement of the merchant name. */
module InputChecks {
  import opened Wrappers
  import opened PhpStrings
  import opened GuoduTypes

  /** PHP's emptiness test on the subscriber: null, an empty number ("" or "0") or an empty list. */
  predicate NoRecipients(subscriber: Subscriber) {
    match subscriber
    case Null => true
    case Number(n) => IsEmpty(n)
    case Numbers(ns) => ns == []
  }

  /** `(array)$subscriber`: a single number becomes a one-element list. */
  function Recipients(subscriber: Subscriber): (r: seq<string>)
    ensures !NoRecipients(subscriber) ==> r != []
    ensures subscriber.Number? ==> r == [subscriber.number]
    ensures subscriber.Numbers? ==> r == subscriber.numbers
  {
    match subscriber
    case Null => []
    case Number(n) => [n]
    case Numbers(ns) => ns
  }

  /** `limitExceeded`: more than `limit` characters (not bytes). */
  predicate LimitExceeded(message: string, limit: nat) {
    |message| > limit
  }

  /**
   * The validation at the top of `send`, in its order: recipients first, then
   * the trimmed message for emptiness, then for length. On success the
   * trimmed message is what goes on.
   */
  function CheckInput(message: string, subscriber: Subscriber): (r: Result<string, Exception>)
    ensures NoRecipients(subscriber) ==> r == Failure(InvalidArgument(NoSubscriber))
    ensures !NoRecipients(subscriber) && IsEmpty(Trim(message)) ==> r == Failure(InvalidArgument(EmptyMessage))
    ensures !NoRecipients(subscriber) && !IsEmpty(Trim(message)) && |Trim(message)| > MessageLimit
            ==> r == Failure(InvalidArgument(MessageTooLong))
    ensures r.Success? <==> !NoRecipients(subscriber) && !IsEmpty(Trim(message)) && |Trim(message)| <= MessageLimit
    ensures r.Success? ==> r.value == Trim(message)
  {
    if NoRecipients(subscriber) then Failure(InvalidArgument(NoSubscriber))
    else
      // An empty message is kept as it is; any other message is trimmed.
      var m := if IsEmpty(message) then message else Trim(message);
      if IsEmpty(m) then Failure(InvalidArgument(EmptyMessage))
      else if LimitExceeded(m, MessageLimit) then Failure(InvalidArgument(MessageTooLong))
      else Success(m)
  }

  /** Where the merchant name goes: the `name_pos` option when it is given, otherwise after the message. */
  function NamePosition(options: SendOptions): (p: int)
    ensures options.namePos.None? ==> p == NamePosAppend
    ensures options.namePos.Some? ==> p == options.namePos.value
  {
    options.namePos.GetOr(NamePosAppend)
  }

  /** Whether `formatMessage` puts the name in at all. */
  predicate NamePlaced(name: string, position: int) {
    !IsEmpty(name) && (position == NamePosAppend || position == NamePosPrepend)
  }

  /**
   * `formatMessage`: the message comes through whole, with the name after it
   * (APPEND) or before it (PREPEND); an empty name, NONE or any other position
   * leaves the message alone.
   */
  function FormatMessage(message: string, name: string, position: int): (r: string)
    ensures |r| == |message| + (if NamePlaced(name, position) then |name| else 0)
    ensures position != NamePosPrepend || !NamePlaced(name, position) ==> r[..|message|] == message
    ensures NamePlaced(name, position) && position == NamePosAppend ==> r[|message|..] == name
    ensures NamePlaced(name, position) && position == NamePosPrepend
            ==> r[..|name|] == name && r[|name|..] == message
  {
    if IsEmpty(name) then message
    else if position == NamePosNone then message
    else if position == NamePosAppend then message + name
    else if position == NamePosPrepend then name + message
    else message
  }

  /**
   * For a message with no blank at either end, exactly 500 characters pass
   * and one more character is too long. The limit applies after trimming,
   * so a padded message may be longer.
   */
  lemma LimitIsInclusive(message: string, subscriber: Subscriber)
    requires !NoRecipients(subscriber)
    requires |message| == MessageLimit
    requires !IsBlank(message[0]) && !IsBlank(message[|message| - 1])
    ensures CheckInput(message, subscriber) == Success(message)
    ensures CheckInput(message + "x", subscriber) == Failure(InvalidArgument(MessageTooLong))
  {
    TrimKeepsUnpadded(message);
    TrimKeepsUnpadded(message + "x");
  }

  /** A string with no blank at either end is its own trim. */
  lemma TrimKeepsUnpadded(s: string)
    requires s != [] && !IsBlank(s[0]) && !IsBlank(s[|s| - 1])
    ensures Trim(s) == s
  {
    assert SkipBlanks(s, 0) == 0;
    assert SkipBlanksBack(s, 0, |s|) == |s|;
    assert s[0..|s|] == s;
  }

  /** PHP's `empty("0")` is true, so "0" is refused as a message and as a single subscriber (but not inside a list). */
  lemma ZeroIsEmpty(subscriber: Subscriber)
    requires !NoRecipients(subscriber)
    ensures CheckInput("0", subscriber) == Failure(InvalidArgument(EmptyMessage))
    ensures NoRecipients(Number("0")) && !NoRecipients(Numbers(["0"]))
  {
  }

  /** A "0" padded with blanks trims to "0", so it is refused as empty too. */
  lemma PaddedZeroIsEmpty(subscriber: Subscriber)
    requires !NoRecipients(subscriber)
    ensures CheckInput(" 0 ", subscriber) == Failure(InvalidArgument(EmptyMessage))
  {
    assert SkipBlanks(" 0 ", 0) == 1;
    assert SkipBlanksBack(" 0 ", 1, 3) == 2;
    assert " 0 "[1..2] == "0";
  }
}

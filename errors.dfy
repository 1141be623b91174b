/** The exception hierarchy of the client: NetworkException and its three
    subclasses, as one record tagged with its kind, and the message of
    InvalidUrlException. */
module Errors {
  import opened Values
  import Decimal

  /** The text used in place of an empty API message. */
  const Placeholder := "No message was provided"

  /** The text between the message and the status in the formatted message. */
  const HttpTag := " (HTTP "

  /** Which class of the hierarchy an exception is. */
  datatype ErrorKind = AccountError | ClientError | ServerError | NetworkError

  /** A constructed exception: its class, its final message text and its
      public `status` field. */
  datatype NetworkException = NetworkException(kind: ErrorKind, message: string, status: Option<int>)

  /** PHP `empty()` on a string: true for "" and also for "0". */
  predicate IsEmpty(s: string)
  {
    s == "" || s == "0"
  }

  /** The class `create` picks for a status: 401 and 429 first, then the 4xx
      range, then the 5xx range, the base class for everything else. */
  function Classify(status: int): (k: ErrorKind)
    ensures k == AccountError <==> status == 401 || status == 429
    ensures k == ClientError <==> 400 <= status <= 499 && status != 401 && status != 429
    ensures k == ServerError <==> 500 <= status <= 599
    ensures k == NetworkError <==> status < 400 || status > 599
  {
    if status == 401 || status == 429 then AccountError
    else if 400 <= status <= 499 then ClientError
    else if 500 <= status <= 599 then ServerError
    else NetworkError
  }

  /** A nullable string as the `.` operator prints it: null prints as "". */
  function TypeText(errorType: Option<string>): string
  {
    match errorType
    case Some(t) => t
    case None => ""
  }

  /** The constructor: with a status the message gets the suffix
      " (HTTP <status>/<type>)", without one it is kept as given. */
  function NewNetworkException(kind: ErrorKind, message: string, errorType: Option<string>, status: Option<int>)
    : (e: NetworkException)
    ensures e.kind == kind && e.status == status
    ensures message <= e.message
    ensures status.None? <==> e.message == message
    ensures status.Some? ==>
      e.message == message + HttpTag + Decimal.Show(status.value) + "/" + TypeText(errorType) + ")"
  {
    match status
    case None => NetworkException(kind, message, None)
    case Some(s) =>
      NetworkException(kind, message + HttpTag + Decimal.Show(s) + "/" + TypeText(errorType) + ")", status)
  }

  /** The message `create` passes on: the placeholder when the API's is empty. */
  function ShownMessage(message: string): (m: string)
    ensures IsEmpty(message) ==> m == Placeholder
    ensures !IsEmpty(message) ==> m == message
    ensures !IsEmpty(m)
  {
    if IsEmpty(message) then Placeholder else message
  }

  /** The factory `NetworkException::create`. */
  function Create(message: string, errorType: string, status: int): (e: NetworkException)
    ensures e.kind == Classify(status)
    ensures e.status == Some(status)
    ensures ShownMessage(message) <= e.message
    ensures IsEmpty(message) ==> Placeholder <= e.message
    ensures e.message == ShownMessage(message) + HttpTag + Decimal.Show(status) + "/" + errorType + ")"
  {
    NewNetworkException(Classify(status), ShownMessage(message), Some(errorType), Some(status))
  }

  /** A tail made of pieces splits after its first piece. */
  lemma SplitAfter(m: string, tag: string, shown: string, tail: string)
    ensures |m| + |tag| <= |m + tag + shown + tail|
    ensures (m + tag + shown + tail)[|m|..|m| + |tag|] == tag
    ensures (m + tag + shown + tail)[|m| + |tag|..] == shown + tail
  {
  }

  /** The status printed in the message of a created exception can be read
      back: `intval` of the text after " (HTTP " is the status again. */
  lemma CreateStatusReadBack(message: string, errorType: string, status: int)
    ensures var e := Create(message, errorType, status);
            var m := ShownMessage(message);
            |m| + |HttpTag| <= |e.message| &&
            e.message[|m|..|m| + |HttpTag|] == HttpTag &&
            Decimal.IntVal(e.message[|m| + |HttpTag|..]) == status
  {
    var m := ShownMessage(message);
    var shown := Decimal.Show(status);
    var tail := "/" + errorType + ")";
    var e := Create(message, errorType, status);
    assert e.message == m + HttpTag + shown + tail by {
      assert shown + "/" + errorType + ")" == shown + tail;
    }
    SplitAfter(m, HttpTag, shown, tail);
    Decimal.IntValShow(status, tail);
  }

  /** The message of InvalidUrlException: "<url> is not a valid URL". */
  function InvalidUrlMessage(url: string): (m: string)
    ensures url <= m
    ensures m[|url|..] == " is not a valid URL"
  {
    url + " is not a valid URL"
  }
}

// The upload client of the upload example (composables/useFileUpload.ts).
//
// `uploadFile` refuses to start without a token, then builds a form and a
// URL, sends them with the token as a bearer credential, and settles its
// promise from whichever XHR event ends the transfer. The event is an input
// (`XhrEvent`); the request that would go out is an output (`Request`).
module FileUpload {
  import opened Api
  import Decimal
  import Auth

  const UploadPath := "/api/system/files/upload"

  /** The messages of the errors the promise can be rejected with. */
  const NotLoggedInMessage := "未登录,无法上传文件"
  const UploadFailedMessage := "上传失败"
  const ParseFailedMessage := "解析响应失败"
  const NetworkErrorMessage := "网络错误"
  const CancelledMessage := "上传已取消"
  /** Prefix of the error for a completed request whose status is not 200. */
  const StatusPrefix := "上传失败: "

  /** The browser `File` being sent; its bytes are not modelled. */
  datatype File = File(name: string, size: nat, mimeType: string)

  /** The response text of a completed request, as `JSON.parse` sees it. */
  datatype Body = Unparseable | Parsed(envelope: Envelope<FileUploadResponse>)

  /** The event that ends a transfer: `load` (with status and body), `error` or `abort`. */
  datatype XhrEvent = Load(status: nat, body: Body) | NetworkError | Abort

  /**
   * What the promise is rejected with: an `Error` with its message, or the
   * `TypeError` that `new URL` throws for a base that is not an absolute URL.
   */
  datatype UploadError = UploadError(message: string) | InvalidUrl

  /** How the promise returned by `uploadFile` settles. */
  datatype Settled = Resolved(data: FileUploadResponse) | Rejected(error: UploadError)

  function StatusMessage(status: nat): string
  {
    StatusPrefix + Decimal.Show(status)
  }

  /** A load event with status 200 whose body is an envelope with code 0 and data. */
  predicate Delivered(e: XhrEvent)
  {
    e.Load? && e.status == 200 && e.body.Parsed? && e.body.envelope.code == 0 && e.body.envelope.data.Some?
  }

  /** The `load`, `error` and `abort` listeners. */
  function Settle(e: XhrEvent): (r: Settled)
    ensures r.Resolved? <==> Delivered(e)
    ensures r.Resolved? ==> r.data == e.body.envelope.data.value
    // an undelivered envelope rejects with its own message, or the fallback when that is empty
    ensures e.Load? && e.status == 200 && e.body.Parsed? && !Delivered(e) ==>
              r == Rejected(UploadError(Or(e.body.envelope.message, UploadFailedMessage)))
  {
    match e
    case Load(status, body) =>
      if status == 200 then
        match body
        case Parsed(response) =>
          if response.code == 0 && response.data.Some? then Resolved(response.data.value)
          else Rejected(UploadError(Or(response.message, UploadFailedMessage)))
        case Unparseable => Rejected(UploadError(ParseFailedMessage))
      else Rejected(UploadError(StatusMessage(status)))
    case NetworkError => Rejected(UploadError(NetworkErrorMessage))
    case Abort => Rejected(UploadError(CancelledMessage))
  }

  /** What happened to a transfer (or why it never started). */
  datatype Kind = Data | EnvelopeError | ParseError | HttpStatus(status: nat) | Network | Cancelled | NoToken | BadBaseUrl

  /** The kind of a transfer's ending, read off the event. */
  function KindOf(e: XhrEvent): Kind
  {
    match e
    case Load(status, body) =>
      if status != 200 then HttpStatus(status)
      else if body.Unparseable? then ParseError
      else if Delivered(e) then Data
      else EnvelopeError
    case NetworkError => Network
    case Abort => Cancelled
  }

  predicate StatusShaped(m: string)
  {
    |m| > |StatusPrefix| && m[..|StatusPrefix|] == StatusPrefix && Decimal.AllDigits(m[|StatusPrefix|..])
  }

  /** The kind a caller can tell from the settled promise alone. */
  function Classify(r: Settled): Kind
  {
    match r
    case Resolved(_) => Data
    case Rejected(InvalidUrl) => BadBaseUrl
    case Rejected(UploadError(m)) =>
      if m == CancelledMessage then Cancelled
      else if m == NetworkErrorMessage then Network
      else if m == ParseFailedMessage then ParseError
      else if m == NotLoggedInMessage then NoToken
      else if StatusShaped(m) then HttpStatus(Decimal.Value(m[|StatusPrefix|..]))
      else EnvelopeError
  }

  /** An envelope-error message that reads as one of the client's own errors. */
  predicate Mimics(e: XhrEvent)
  {
    e.Load? && e.status == 200 && e.body.Parsed? && !Delivered(e)
    && Classify(Rejected(UploadError(Or(e.body.envelope.message, UploadFailedMessage)))) != EnvelopeError
  }

  /**
   * The settled promise tells what happened: the status of a failed request
   * can be read back from its message, and every kind of ending has its own
   * error, unless the server's own message mimics one of the client's.
   */
  lemma {:induction false} ClassifyRecoversKind(e: XhrEvent)
    requires !Mimics(e)
    ensures Classify(Settle(e)) == KindOf(e)
  {
    if e.Load? && e.status != 200 {
      var m := StatusMessage(e.status);
      assert m[..|StatusPrefix|] == StatusPrefix;
      assert m[|StatusPrefix|..] == Decimal.Show(e.status);
      Decimal.ValueShow(e.status);
    }
  }

  /** A cancelled transfer's error differs from every other ending's, mimicking messages aside. */
  lemma CancellationIsDistinct(e: XhrEvent)
    requires e != Abort && !Mimics(e)
    ensures Settle(e) != Settle(Abort)
  {
    ClassifyRecoversKind(e);
    ClassifyRecoversKind(Abort);
  }

  /** A server message equal to the cancellation text makes a failed upload look cancelled. */
  lemma CancellationCanBeMimicked(code: int, data: Option<FileUploadResponse>)
    requires !(code == 0 && data.Some?)
    ensures Settle(Load(200, Parsed(Envelope(code, CancelledMessage, data)))) == Settle(Abort)
  {
  }

  /** The URL's query string, which the code appends to in place. */
  class SearchParams {
    var entries: seq<(string, string)>

    constructor ()
      ensures entries == []
    {
      entries := [];
    }

    method Append(name: string, value: string)
      modifies this
      ensures entries == old(entries) + [(name, value)]
    {
      entries := entries + [(name, value)];
    }
  }

  /** The multipart form, which the code appends the file to. */
  class FormData {
    var entries: seq<(string, File)>

    constructor ()
      ensures entries == []
    {
      entries := [];
    }

    method Append(name: string, file: File)
      modifies this
      ensures entries == old(entries) + [(name, file)]
    {
      entries := entries + [(name, file)];
    }
  }

  datatype Url = Url(base: string, path: string, query: seq<(string, string)>)

  /** The request as sent: verb, URL, Authorization header and form entries. */
  datatype Request = Request(verb: string, url: Url, authorization: string, form: seq<(string, File)>)

  /**
   * `uploadFile(file, category)` with `token` the session's current token and
   * `event` the event that ends the transfer; `baseIsAbsolute` is whether
   * `apiBaseUrl` parses as an absolute URL. Without a token it rejects before
   * anything is built or sent; with a base that does not parse, `new URL`
   * throws inside the promise executor, which rejects before the request is
   * opened.
   */
  method UploadFile(token: Option<string>, apiBaseUrl: string, baseIsAbsolute: bool, file: File,
                    category: Option<string>, event: XhrEvent)
    returns (r: Settled, sent: Option<Request>)
    ensures !Truthy(token) ==> r == Rejected(UploadError(NotLoggedInMessage)) && sent == None
    ensures Truthy(token) && !baseIsAbsolute ==> r == Rejected(InvalidUrl) && sent == None
    ensures Truthy(token) && baseIsAbsolute ==> r == Settle(event) && sent.Some?
    ensures sent.Some? ==>
              && sent.value.verb == "POST"
              && sent.value.authorization == Auth.Bearer(token.value)
              && sent.value.form == [("file", file)]
              && sent.value.url.base == apiBaseUrl && sent.value.url.path == UploadPath
              && (Truthy(category) ==> sent.value.url.query == [("category", category.value)])
              && (!Truthy(category) ==> sent.value.url.query == [])
  {
    if !Truthy(token) {
      return Rejected(UploadError(NotLoggedInMessage)), None;
    }
    var form := new FormData();
    form.Append("file", file);
    if !baseIsAbsolute {
      return Rejected(InvalidUrl), None;
    }
    var params := new SearchParams();
    if Truthy(category) {
      params.Append("category", category.value);
    }
    sent := Some(Request("POST", Url(apiBaseUrl, UploadPath, params.entries), Auth.Bearer(token.value), form.entries));
    r := Settle(event);
  }
}

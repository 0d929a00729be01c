/** The decisions the HTTP handlers take on their own: which request is
    rejected before the session manager is asked anything, which destination
    the manager is handed, and which response follows from what the manager
    reports. The manager's answers are parameters here, not modelled
    behaviour; encoding a response as JSON is left out. */
module Handlers {
  import opened PhoneNumber

  const StatusOK := 200
  const StatusBadRequest := 400
  const StatusInternalServerError := 500
  const StatusNotImplemented := 501

  const ConnectedStatus := "connected"
  const AlreadyConnectedMessage := "Already connected"
  const ScanQRMessage := "Scan the QR code with WhatsApp"
  const NoQRNeededMessage := "Already connected, no QR code needed"
  const QRUnavailableMessage := "QR code not available. Try connecting first."
  const InvalidBodyMessage := "Invalid request body"
  const LocationNotImplementedMessage := "Location sending not yet implemented"
  const NotImplementedMessage := "Not yet implemented"

  datatype Option<T> = None | Some(value: T)

  /** What the manager reports back: a value, or the text of its error. */
  datatype Result<T> = Ok(value: T) | Err(error: string)

  /** The `data` object of a successful response. */
  datatype Payload =
    | ConnectInfo(status: string, qrCode: string, waNumber: string, message: string)
    | NoQRNeeded(status: string, message: string)
    | QRCode(qrCode: string)
    | Sent(messageId: string, to: string, status: string)
    | Acknowledged(status: string)

  /** A response: `success: true` with data under HTTP 200, or `success: false`
      with an error text under the given HTTP status. */
  datatype Response = Success(data: Payload) | Error(code: int, message: string)

  function HttpStatus(r: Response): int {
    match r
    case Success(_) => StatusOK
    case Error(code, _) => code
  }

  // ---------------------------------------------------------------------
  // Connecting an instance
  // ---------------------------------------------------------------------

  /** The instance fields read after a successful connect. */
  datatype InstanceSnapshot = InstanceSnapshot(status: string, qrCodeBase64: string, waNumber: string)

  /** The hint shown to the caller after connecting. */
  function ConnectMessage(status: string): (m: string)
    ensures m == AlreadyConnectedMessage <==> status == ConnectedStatus
    ensures m == ScanQRMessage <==> status != ConnectedStatus
  {
    if status == ConnectedStatus then AlreadyConnectedMessage else ScanQRMessage
  }

  /** `connected` is what the manager's Connect returned, the instance fields
      being those read back after the wait. */
  function ConnectInstance(connected: Result<InstanceSnapshot>): (r: Response)
    ensures r.Error? <==> connected.Err?
    ensures r.Error? ==> r.code == StatusInternalServerError && r.message == connected.error
    ensures r.Success? ==>
      && r.data.ConnectInfo?
      && r.data.status == connected.value.status
      && r.data.qrCode == connected.value.qrCodeBase64
      && r.data.waNumber == connected.value.waNumber
      && r.data.message == ConnectMessage(connected.value.status)
  {
    match connected
    case Err(e) => Error(StatusInternalServerError, e)
    case Ok(snap) =>
      Success(ConnectInfo(snap.status, snap.qrCodeBase64, snap.waNumber, ConnectMessage(snap.status)))
  }

  // ---------------------------------------------------------------------
  // QR code lookup
  // ---------------------------------------------------------------------

  /** `qrBase64` and `status` are what the manager reports for the instance. */
  function GetQRCode(qrBase64: string, status: string): (r: Response)
    ensures r.Success? <==> qrBase64 != "" || status == ConnectedStatus
    ensures qrBase64 != "" ==> r == Success(QRCode(qrBase64))
    ensures qrBase64 == "" && status == ConnectedStatus ==>
      r == Success(NoQRNeeded(ConnectedStatus, NoQRNeededMessage))
    ensures r.Error? ==> r.code == StatusBadRequest && r.message == QRUnavailableMessage
  {
    if qrBase64 == "" then
      if status == ConnectedStatus then
        Success(NoQRNeeded(ConnectedStatus, NoQRNeededMessage))
      else
        Error(StatusBadRequest, QRUnavailableMessage)
    else
      Success(QRCode(qrBase64))
  }

  /** A QR payload is never an empty code: an empty code either means the
      instance is connected already or is reported as an error. */
  lemma QRPayloadNeverEmpty(qrBase64: string, status: string)
    ensures var r := GetQRCode(qrBase64, status);
      r.Success? && r.data.QRCode? ==> r.data.qrCode != ""
  {}

  // ---------------------------------------------------------------------
  // Sending text, media and presence
  // ---------------------------------------------------------------------

  /** The decoded body of the three send endpoints; a field missing from the
      JSON body decodes as "". */
  datatype SendRequest =
    | TextRequest(instanceId: string, to: string, text: string)
    | MediaRequest(instanceId: string, to: string, mediaUrl: string, caption: string, mediaType: string)
    | PresenceRequest(instanceId: string, to: string, presence: string)

  /** The third field each endpoint insists on. */
  function Content(req: SendRequest): string {
    match req
    case TextRequest(_, _, text) => text
    case MediaRequest(_, _, mediaUrl, _, _) => mediaUrl
    case PresenceRequest(_, _, presence) => presence
  }

  /** The validation each send handler performs, on the fields as received. */
  predicate HasRequiredFields(req: SendRequest) {
    req.instanceId != "" && req.to != "" && Content(req) != ""
  }

  function MissingFieldsMessage(req: SendRequest): string {
    match req
    case TextRequest(_, _, _) => "instanceId, to, and text are required"
    case MediaRequest(_, _, _, _, _) => "instanceId, to, and mediaUrl are required"
    case PresenceRequest(_, _, _) => "instanceId, to, and presence are required"
  }

  /** One send handler run: the request handed to the manager, if any, and the
      response. */
  datatype Handled = Handled(call: Option<SendRequest>, response: Response)

  /** `body` is None when the JSON body does not decode. `reply` is what the
      manager answers to the request it is handed: a message id (unused for
      presence) or an error. */
  function HandleSend(body: Option<SendRequest>, reply: SendRequest -> Result<string>): (h: Handled)
    ensures HttpStatus(h.response) == StatusBadRequest <==> body.None? || !HasRequiredFields(body.value)
    ensures body.None? ==> h.response == Error(StatusBadRequest, InvalidBodyMessage)
    ensures body.Some? && !HasRequiredFields(body.value) ==>
      h.response == Error(StatusBadRequest, MissingFieldsMessage(body.value))
    ensures h.call.Some? <==> body.Some? && HasRequiredFields(body.value)
    ensures h.call.Some? ==>
      && AllDigits(h.call.value.to)
      && h.call.value == body.value.(to := Clean(body.value.to))
    ensures h.response.Success? <==> h.call.Some? && reply(h.call.value).Ok?
    ensures h.call.Some? && reply(h.call.value).Err? ==>
      h.response == Error(StatusInternalServerError, reply(h.call.value).error)
    ensures h.response.Success? ==>
      if h.call.value.PresenceRequest? then h.response.data == Acknowledged("success")
      else h.response.data == Sent(reply(h.call.value).value, h.call.value.to, "sent")
  {
    match body
    case None => Handled(None, Error(StatusBadRequest, InvalidBodyMessage))
    case Some(req) =>
      if !HasRequiredFields(req) then
        Handled(None, Error(StatusBadRequest, MissingFieldsMessage(req)))
      else
        var call := req.(to := Clean(req.to));
        match reply(call)
        case Err(e) => Handled(Some(call), Error(StatusInternalServerError, e))
        case Ok(messageId) =>
          var data := if req.PresenceRequest? then Acknowledged("success") else Sent(messageId, call.to, "sent");
          Handled(Some(call), Success(data))
  }

  /** A text message is refused with 400 exactly when one of instanceId, to
      and text is empty. */
  lemma SendTextRejectedIff(instanceId: string, to: string, text: string, reply: SendRequest -> Result<string>)
    ensures HttpStatus(HandleSend(Some(TextRequest(instanceId, to, text)), reply).response) == StatusBadRequest
      <==> instanceId == "" || to == "" || text == ""
  {}

  /** Media needs mediaUrl in place of text; caption and mediaType may be empty. */
  lemma SendMediaRejectedIff(instanceId: string, to: string, mediaUrl: string, caption: string, mediaType: string,
                             reply: SendRequest -> Result<string>)
    ensures var r := HandleSend(Some(MediaRequest(instanceId, to, mediaUrl, caption, mediaType)), reply).response;
      HttpStatus(r) == StatusBadRequest <==> instanceId == "" || to == "" || mediaUrl == ""
  {}

  /** Presence needs presence in place of text. */
  lemma SendPresenceRejectedIff(instanceId: string, to: string, presence: string, reply: SendRequest -> Result<string>)
    ensures HttpStatus(HandleSend(Some(PresenceRequest(instanceId, to, presence)), reply).response) == StatusBadRequest
      <==> instanceId == "" || to == "" || presence == ""
  {}

  /** Validation looks at `to` as received, before it is cleaned: a non-empty
      destination without a digit passes and the manager is handed an empty
      one. */
  lemma DigitlessDestinationPassesValidation(req: SendRequest, reply: SendRequest -> Result<string>)
    requires HasRequiredFields(req) && NoDigits(req.to)
    ensures HttpStatus(HandleSend(Some(req), reply).response) != StatusBadRequest
    ensures HandleSend(Some(req), reply).call == Some(req.(to := ""))
  {
    CleanEmptyIff(req.to);
  }

  /** The same, on a destination made of punctuation only. */
  lemma PunctuationOnlyDestination(reply: SendRequest -> Result<string>)
    ensures HandleSend(Some(TextRequest("acct1", "+()", "hi")), reply).call == Some(TextRequest("acct1", "", "hi"))
  {
    DigitlessDestinationPassesValidation(TextRequest("acct1", "+()", "hi"), reply);
  }

  /** A formatted destination reaches the manager as bare digits, and a
      failure the manager reports comes back verbatim under HTTP 500. */
  lemma SendTextScenario(reply: SendRequest -> Result<string>)
    requires reply(TextRequest("acct1", "15551234567", "hi")) == Err("rate limited")
    ensures var h := HandleSend(Some(TextRequest("acct1", "+1 (555) 123-4567", "hi")), reply);
      h.call == Some(TextRequest("acct1", "15551234567", "hi"))
      && h.response == Error(StatusInternalServerError, "rate limited")
  {
    FormattedNumberExample();
  }

  // ---------------------------------------------------------------------
  // Endpoints that are not implemented
  // ---------------------------------------------------------------------

  /** `decoded` says whether the body decoded as a location request; its
      contents are never used. */
  function SendLocation(decoded: bool): (r: Response)
    ensures r.Error?
    ensures r.code == StatusBadRequest <==> !decoded
    ensures !decoded ==> r == Error(StatusBadRequest, InvalidBodyMessage)
    ensures decoded ==> r == Error(StatusNotImplemented, LocationNotImplementedMessage)
  {
    if !decoded then Error(StatusBadRequest, InvalidBodyMessage)
    else Error(StatusNotImplemented, LocationNotImplementedMessage)
  }

  datatype StubEndpoint = GetContacts | CheckNumber | GetGroups

  /** These endpoints answer "not implemented" whatever the request, so a
      caller never mistakes an unsupported capability for an empty result. */
  function Unsupported(endpoint: StubEndpoint): (r: Response)
    ensures r.Error? && HttpStatus(r) == StatusNotImplemented
    ensures r.message == NotImplementedMessage
  {
    Error(StatusNotImplemented, NotImplementedMessage)
  }
}

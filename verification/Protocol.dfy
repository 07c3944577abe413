/** The messages of the transfer session and their JSON form. */
module Protocol {
  import opened Basics
  import opened Model

  datatype NonceMessage = NonceMessage(nonce: string)

  datatype TokenRequest = TokenRequest(token: string)

  datatype TokenResponse = TokenOk(token: string) | TokenPinRequired(token: string) | TokenInvalidSignature

  datatype PinMessage = PinMessage(pin: string)

  datatype PinReceivingResponse = PinOk | PinRequired | PinTooManyAttempts

  datatype PinSendingResponse = ListOk(files: seq<FileDto>) | ListPinRequired | ListTooManyAttempts

  datatype FileListResponse =
    | SelectionOk(tokens: map<string, string>)
    | SelectionPair(publicKey: string)
    | SelectionDeclined
    | SelectionInvalidSignature

  datatype FileHeader = FileHeader(id: string, token: string)

  datatype FileResponse = FileResponse(id: string, success: bool, error: Option<string>)

  /** The JSON form of one message type. */
  datatype Json<!T> = Json(encode: T -> bytes, decode: bytes -> Option<T>)

  /** Printing can be undone, and no object fits into one octet. */
  ghost predicate Faithful<T(!new)>(json: Json<T>) {
    && (forall t: T :: json.decode(json.encode(t)) == Some(t))
    && (forall b: bytes :: |b| <= 1 ==> json.decode(b) == None)
  }

  datatype Serde = Serde(
    nonce: Json<NonceMessage>,
    tokenRequest: Json<TokenRequest>,
    tokenResponse: Json<TokenResponse>,
    pin: Json<PinMessage>,
    pinReceiving: Json<PinReceivingResponse>,
    pinSending: Json<PinSendingResponse>,
    fileList: Json<FileListResponse>,
    header: Json<FileHeader>,
    response: Json<FileResponse>)
  {
    ghost predicate Valid() {
      && Faithful(nonce) && Faithful(tokenRequest) && Faithful(tokenResponse) && Faithful(pin)
      && Faithful(pinReceiving) && Faithful(pinSending) && Faithful(fileList) && Faithful(header)
      && Faithful(response)
    }
  }

  datatype PinConfig = PinConfig(pin: string, maxTries: u8)
}

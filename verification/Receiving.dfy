/** The task of the receiving device, in the same form as the sender's. */
module Receiving {
  import opened Basics
  import opened Framing
  import opened Handshake
  import opened Model
  import opened PinCheck
  import opened Protocol
  import opened FileLoop
  import Token

  datatype Stage =
    | AwaitNonce
    | AwaitToken(nonce: bytes)
    | AwaitPin(tries: nat)         // the sender must supply our PIN
    | AwaitStatus(buffer: bytes)
    | EnterPin                     // the user is asked for the sender's PIN
    | AwaitVerdict(buffer: bytes)
    | Select                       // the user is asked which files to take
    | Files
    | AwaitUser(msg: Message)      // a file is complete; the application says how it fared
    | Ended(outcome: Outcome)

  /** `published` is set once the file list was shown to the user. */
  datatype Task = Task(
    stage: Stage, entered: seq<string>, published: bool, setting: Setting, loop: Loop)
  {
    function Send(out: seq<Message>, stage: Stage): Step {
      Step(this.(stage := stage), out)
    }

    function Go(stage: Stage): Step {
      Step(this.(stage := stage), [])
    }

    function End(outcome: Outcome): Step {
      Go(Ended(outcome))
    }
  }

  datatype Step = Step(task: Task, out: seq<Message>)

  datatype Action =
    | Enter(pin: string)
    | Choose(selection: Option<map<string, string>>)
    | Verdict(result: Option<FileResponse>)  // `None` if the application went away

  function Begin(c: Config): Step {
    Step(Task(AwaitNonce, [], false, Setting(c.serde, [], map[]), INITIAL), [])
  }

  function PinReply(c: Config, reply: PinReceivingResponse): seq<Message> {
    [Text(c.serde.pinReceiving.encode(reply))]
  }

  function JudgePin(c: Config, t: Task, config: PinConfig, remotePin: string, tries: nat): Step {
    match Judge(config, remotePin, tries)
    case Accept => t.Send(PinReply(c, PinOk), AwaitStatus([]))
    case Exhausted => t.Send(PinReply(c, PinTooManyAttempts), Ended(TooManyAttempts))
    case AskAgain =>
      if tries == 0 then t.Go(AwaitPin(0))
      else t.Send(PinReply(c, PinRequired), AwaitPin(tries))
  }

  function TokenText(c: Config, response: TokenResponse): Message {
    Text(c.serde.tokenResponse.encode(response))
  }

  function OnNonce(c: Config, t: Task, msg: Message): Step {
    match ReadNonce(c.serde, msg)
    case None => t.End(ProtocolError)
    case Some(remote) => t.Send([NonceText(c)], AwaitToken(remote + c.nonce))
  }

  function OnToken(c: Config, t: Task, nonce: bytes, msg: Message): Step {
    if !msg.isString then t.End(ProtocolError)
    else
      match c.serde.tokenRequest.decode(msg.data)
      case None => t.End(ProtocolError)
      case Some(request) =>
        match Trust(c, request.token, nonce)
        case Rejected => t.Send([TokenText(c, TokenInvalidSignature)], Ended(BadSignature))
        case Panicked => t.End(Crashed)
        case Accepted =>
          match c.pin
          case None => t.Send([TokenText(c, TokenOk(OwnToken(c, nonce)))], AwaitStatus([]))
          case Some(config) =>
            var judged := JudgePin(c, t, config, "", 0);
            judged.(out := [TokenText(c, TokenPinRequired(OwnToken(c, nonce)))] + judged.out)
  }

  function OnPin(c: Config, t: Task, tries: nat, msg: Message): Step {
    match (c.pin, ParsePin(c.serde, msg))
    case (Some(config), Some(pin)) => JudgePin(c, t, config, pin, tries + 1)
    case _ => t.End(ProtocolError)
  }

  function Publish(c: Config, t: Task, files: seq<FileDto>): Step {
    t.(published := true, setting := Setting(c.serde, files, map[])).Go(Select)
  }

  function OnStatus(c: Config, t: Task, buffer: bytes): Step {
    match c.serde.pinSending.decode(buffer)
    case None => t.End(ProtocolError)
    case Some(ListOk(files)) => Publish(c, t, files)
    case Some(ListPinRequired) => t.Go(EnterPin)
    case Some(ListTooManyAttempts) => t.End(ProtocolError)
  }

  function OnVerdict(c: Config, t: Task, buffer: bytes): Step {
    match c.serde.pinSending.decode(buffer)
    case None => t.End(ProtocolError)
    case Some(ListOk(files)) => Publish(c, t, files)
    case Some(ListPinRequired) => t.Go(EnterPin)
    case Some(ListTooManyAttempts) => t.End(TooManyAttempts)
  }

  predicate Listening(t: Task) {
    t.stage.AwaitNonce? || t.stage.AwaitToken? || t.stage.AwaitPin? || t.stage.AwaitStatus?
    || t.stage.AwaitVerdict? || t.stage.Files?
  }

  /** Where the task stands after a turn of the file loop. */
  function AfterTurn(t: Task, loop: Loop): Step {
    var t' := t.(loop := loop);
    match loop.status
    case Running => t'.Go(Files)
    case Done => t'.End(Finished)
    case Broken => t'.End(ProtocolError)
  }

  /** A text message that closes a file has to wait for the application's verdict. */
  function OnFile(t: Task, msg: Message): Step {
    if msg.isString && t.loop.open.Some? then t.Go(AwaitUser(msg))
    else AfterTurn(t, Turn(t.setting, None, t.loop, msg))
  }

  function OnMessage(c: Config, t: Task, msg: Message): Step
    requires Listening(t)
  {
    match t.stage
    case AwaitNonce => OnNonce(c, t, msg)
    case AwaitToken(nonce) => OnToken(c, t, nonce, msg)
    case AwaitPin(tries) => OnPin(c, t, tries, msg)
    case AwaitStatus(buffer) =>
      if msg.isString then OnStatus(c, t, buffer) else t.Go(AwaitStatus(buffer + msg.data))
    case AwaitVerdict(buffer) =>
      if msg.isString then OnVerdict(c, t, buffer) else t.Go(AwaitVerdict(buffer + msg.data))
    case Files => OnFile(t, msg)
  }

  predicate CanAct(t: Task, a: Action) {
    match a
    case Enter(_) => t.stage.EnterPin?
    case Choose(_) => t.stage.Select?
    case Verdict(_) => t.stage.AwaitUser? && t.loop.open.Some?
  }

  function OnAction(c: Config, t: Task, a: Action): Step
    requires CanAct(t, a)
  {
    match a
    case Enter(pin) =>
      t.(entered := t.entered + [pin]).Send([Text(c.serde.pin.encode(PinMessage(pin)))], AwaitVerdict([]))
    case Choose(selection) => OnChoice(c, t, selection)
    case Verdict(result) => OnResult(c, t, t.loop.open.value, t.stage.msg, result)
  }

  function OnChoice(c: Config, t: Task, selection: Option<map<string, string>>): Step {
    match selection
    case None => t.Send(Framed(c.serde.fileList.encode(SelectionDeclined)), Ended(Declined))
    case Some(tokens) =>
      t.(setting := t.setting.(tokens := tokens), loop := INITIAL)
      .Send(Framed(c.serde.fileList.encode(SelectionOk(tokens))), Files)
  }

  function OnResult(c: Config, t: Task, id: string, msg: Message, result: Option<FileResponse>): Step {
    AfterTurn(t, Turn(t.setting, result, t.loop, msg))
    .(out := [Text(c.serde.response.encode(AnswerFor(id, result)))])
  }
}

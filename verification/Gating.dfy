/** What either device gives away, and when, to a peer that may send anything at all. */
module Gating {
  import opened Basics
  import opened Framing
  import opened Handshake
  import opened Model
  import opened PinCheck
  import opened Protocol
  import S = Sending
  import R = Receiving
  import FileLoop
  import Token

  /** What happens to a task: it takes a message off the channel, or its user or application acts. */
  datatype Event<+A> = Heard(msg: Message) | Acted(action: A)

  /** The messages among `events`, in order. */
  function Messages<A>(events: seq<Event<A>>): seq<Message>
    decreases |events|
  {
    if events == [] then []
    else
      var n := |events| - 1;
      Messages(events[..n]) + (if events[n].Heard? then [events[n].msg] else [])
  }

  predicate SenderReady(t: S.Task, e: Event<S.Action>) {
    match e
    case Heard(_) => S.Listening(t)
    case Acted(a) => S.CanAct(t, a)
  }

  function SenderStep(c: Config, files: seq<FileDto>, t: S.Task, e: Event<S.Action>): S.Step
    requires SenderReady(t, e)
  {
    match e
    case Heard(msg) => S.OnMessage(c, files, t, msg)
    case Acted(a) => S.OnAction(c, t, a)
  }

  /** The sending task after `events`, and all that it emitted until then, if they were possible in turn. */
  function SenderAfter(c: Config, files: seq<FileDto>, events: seq<Event<S.Action>>): Option<S.Step>
    decreases |events|
  {
    if events == [] then Some(S.Begin(c))
    else
      var n := |events| - 1;
      match SenderAfter(c, files, events[..n])
      case None => None
      case Some(before) =>
        if !SenderReady(before.task, events[n]) then None
        else
          var step := SenderStep(c, files, before.task, events[n]);
          Some(S.Step(step.task, before.out + step.out))
  }

  predicate ReceiverReady(t: R.Task, e: Event<R.Action>) {
    match e
    case Heard(_) => R.Listening(t)
    case Acted(a) => R.CanAct(t, a)
  }

  function ReceiverStep(c: Config, t: R.Task, e: Event<R.Action>): R.Step
    requires ReceiverReady(t, e)
  {
    match e
    case Heard(msg) => R.OnMessage(c, t, msg)
    case Acted(a) => R.OnAction(c, t, a)
  }

  function ReceiverAfter(c: Config, events: seq<Event<R.Action>>): Option<R.Task>
    decreases |events|
  {
    if events == [] then Some(R.Begin(c).task)
    else
      var n := |events| - 1;
      match ReceiverAfter(c, events[..n])
      case None => None
      case Some(before) =>
        if !ReceiverReady(before, events[n]) then None
        else Some(ReceiverStep(c, before, events[n]).task)
  }

  // ---- Clearance, in terms of the messages a device was sent ------------------------------------

  /** From message `k` on, some wrong PINs within the allowed number, and then the right one. */
  predicate Named(serde: Serde, config: PinConfig, heard: seq<Message>, k: nat) {
    exists n: nat :: n < config.maxTries as nat && k + n < |heard| && NamedAfter(serde, config, heard, k, n)
  }

  predicate NamedAfter(serde: Serde, config: PinConfig, heard: seq<Message>, k: nat, n: nat)
    requires k + n < |heard|
  {
    WrongFrom(serde, config, heard, k, n) && serde.pin.decode(heard[k + n].data) == Some(PinMessage(config.pin))
  }

  predicate WrongFrom(serde: Serde, config: PinConfig, heard: seq<Message>, k: nat, n: nat)
    requires k + n <= |heard|
  {
    forall i :: k <= i < k + n ==>
      serde.pin.decode(heard[i].data).Some? && serde.pin.decode(heard[i].data).value.pin != config.pin
  }

  /** The first message was an acceptable nonce and the second bore a token that proves the expected key for it. The
      sender's part of the nonce always comes first. */
  ghost predicate SenderTrustsPeer(c: Config, heard: seq<Message>) {
    && |heard| >= 2 && heard[1].isString
    && match (ReadNonce(c.serde, heard[0]), c.serde.tokenResponse.decode(heard[1].data)) {
         case (Some(remote), Some(response)) =>
           !response.TokenInvalidSignature? && Proven(c, response.token, c.nonce + remote)
         case _ => false
       }
  }

  ghost predicate ReceiverTrustsPeer(c: Config, heard: seq<Message>) {
    && |heard| >= 2 && heard[1].isString
    && match (ReadNonce(c.serde, heard[0]), c.serde.tokenRequest.decode(heard[1].data)) {
         case (Some(remote), Some(request)) => Proven(c, request.token, remote + c.nonce)
         case _ => false
       }
  }

  predicate NeedsPin(c: Config) {
    c.pin.Some? && c.pin.value.pin != ""
  }

  /** A reply to a PIN the sender submitted. */
  function PinReplyIn(c: Config, msg: Message): Option<PinReceivingResponse> {
    if msg.isString then c.serde.pinReceiving.decode(msg.data) else None
  }

  /** Past the first message from `k` on that does not ask for another PIN, if it says that the last one was right. */
  function AfterReplies(c: Config, heard: seq<Message>, k: nat): (start: Option<nat>)
    ensures start.Some? ==> k < start.value <= |heard|
    decreases |heard| - k
  {
    if k >= |heard| then None
    else
      match PinReplyIn(c, heard[k])
      case Some(PinOk) => Some(k + 1)
      case Some(PinRequired) => AfterReplies(c, heard, k + 1)
      case _ => None
  }

  /** Where the sender's own challenge starts: behind the token, or behind the good end of the receiver's challenge. */
  function ChallengeStart(c: Config, heard: seq<Message>): (start: Option<nat>)
    ensures start.Some? ==> 2 <= start.value <= |heard|
  {
    if |heard| < 2 || !heard[1].isString then None
    else
      match c.serde.tokenResponse.decode(heard[1].data)
      case Some(TokenOk(_)) => Some(2)
      case Some(TokenPinRequired(_)) => AfterReplies(c, heard, 2)
      case _ => None
  }

  /** The peer is past its own challenge, and its first messages after that were some wrong PINs within the allowed
      number, and then the right one. */
  predicate SenderNamed(c: Config, heard: seq<Message>) {
    var start := ChallengeStart(c, heard);
    start.Some? && (NeedsPin(c) ==> Named(c.serde, c.pin.value, heard, start.value))
  }

  ghost predicate SenderCleared(c: Config, heard: seq<Message>) {
    SenderTrustsPeer(c, heard) && SenderNamed(c, heard)
  }

  /** Past the right PIN, if it comes at `k` or after some wrong ones within the given number of messages. */
  function PastPin(serde: Serde, config: PinConfig, heard: seq<Message>, k: nat, tries: nat): (end: Option<nat>)
    ensures end.Some? ==> k < end.value <= |heard|
    decreases tries
  {
    if tries == 0 || k >= |heard| then None
    else
      match serde.pin.decode(heard[k].data)
      case None => None
      case Some(m) => if m.pin == config.pin then Some(k + 1) else PastPin(serde, config, heard, k + 1, tries - 1)
  }

  /** Where the file list may start: behind the token, or behind the right PIN. */
  function ListStart(c: Config, heard: seq<Message>): (start: Option<nat>)
    requires |heard| >= 2
    ensures start.Some? ==> 2 <= start.value <= |heard|
  {
    if NeedsPin(c) then PastPin(c.serde, c.pin.value, heard, 2, c.pin.value.maxTries as nat) else Some(2)
  }

  ghost predicate ReceiverCleared(c: Config, heard: seq<Message>) {
    ReceiverTrustsPeer(c, heard) && ListStart(c, heard).Some?
  }

  /** What was read from the messages behind that: the beginning of a string, the file list, or something else. A string
      that asks for a PIN is followed by another one. */
  datatype Reading = Partly(buffer: bytes) | List(files: seq<FileDto>) | Nothing

  function ReadMore(c: Config, reading: Reading, msg: Message): Reading {
    match reading
    case Partly(buffer) =>
      if !msg.isString then Partly(buffer + msg.data)
      else
        (match c.serde.pinSending.decode(buffer)
         case Some(ListOk(files)) => List(files)
         case Some(ListPinRequired) => Partly([])
         case _ => Nothing)
    case _ => reading
  }

  function ReadAll(c: Config, msgs: seq<Message>): Reading
    decreases |msgs|
  {
    if msgs == [] then Partly([]) else ReadMore(c, ReadAll(c, msgs[..|msgs| - 1]), msgs[|msgs| - 1])
  }

  /** What a cleared peer was read to say. */
  ghost function ListRead(c: Config, heard: seq<Message>): Reading {
    if ReceiverCleared(c, heard) then ReadAll(c, heard[ListStart(c, heard).value..]) else Nothing
  }

  // ---- The sender -------------------------------------------------------------------------------

  /** The last `tries` messages were wrong PINs, and more are allowed. */
  predicate Guessing(c: Config, heard: seq<Message>, tries: nat) {
    && NeedsPin(c) && tries < c.pin.value.maxTries as nat
    && |heard| >= 2 + tries && WrongFrom(c.serde, c.pin.value, heard, |heard| - tries, tries)
  }

  /** The receiver asked for its PIN, and so far for another one each time. */
  ghost predicate Submitting(c: Config, heard: seq<Message>) {
    && SenderTrustsPeer(c, heard) && c.serde.tokenResponse.decode(heard[1].data).value.TokenPinRequired?
    && forall i :: 2 <= i < |heard| ==> PinReplyIn(c, heard[i]) == Some(PinRequired)
  }

  ghost predicate SenderGate(c: Config, heard: seq<Message>, t: S.Task) {
    && (t.listed <==> SenderCleared(c, heard))
    && match t.stage {
         case AwaitNonce => heard == []
         case AwaitToken(nonce) =>
           |heard| == 1 && ReadNonce(c.serde, heard[0]).Some?
           && nonce == c.nonce + ReadNonce(c.serde, heard[0]).value
         case EnterPin => Submitting(c, heard)
         case AwaitPinReply => Submitting(c, heard)
         case AwaitPin(tries) =>
           SenderTrustsPeer(c, heard) && Guessing(c, heard, tries) && ChallengeStart(c, heard) == Some(|heard| - tries)
         case Ended(_) => true
         case _ => t.listed
       }
  }

  lemma {:induction false} RepliesSnoc(c: Config, heard: seq<Message>, k: nat, msg: Message)
    requires k <= |heard| && forall i :: k <= i < |heard| ==> PinReplyIn(c, heard[i]) == Some(PinRequired)
    ensures AfterReplies(c, heard, k) == None
    ensures AfterReplies(c, heard + [msg], k) == if PinReplyIn(c, msg) == Some(PinOk) then Some(|heard| + 1) else None
    decreases |heard| - k
  {
    if k < |heard| {
      RepliesSnoc(c, heard, k + 1, msg);
      assert (heard + [msg])[k] == heard[k];
    }
  }

  lemma {:induction false} RepliesStay(c: Config, heard: seq<Message>, k: nat, msg: Message)
    requires AfterReplies(c, heard, k).Some?
    ensures AfterReplies(c, heard + [msg], k) == AfterReplies(c, heard, k)
    decreases |heard| - k
  {
    assert (heard + [msg])[k] == heard[k];
    if PinReplyIn(c, heard[k]) == Some(PinRequired) {
      RepliesStay(c, heard, k + 1, msg);
    }
  }

  /** Once the challenge has started, its start is fixed. */
  lemma StartStays(c: Config, heard: seq<Message>, msg: Message)
    ensures ChallengeStart(c, heard).Some? ==> ChallengeStart(c, heard + [msg]) == ChallengeStart(c, heard)
  {
    if AfterReplies(c, heard, 2).Some? {
      RepliesStay(c, heard, 2, msg);
    }
  }

  /** The challenge starts with the reply that the last PIN was right, and with no other. */
  lemma StartsWithOk(c: Config, heard: seq<Message>, msg: Message)
    requires Submitting(c, heard)
    ensures ChallengeStart(c, heard) == None
    ensures ChallengeStart(c, heard + [msg]) == if PinReplyIn(c, msg) == Some(PinOk) then Some(|heard| + 1) else None
    ensures PinReplyIn(c, msg) == Some(PinRequired) ==> Submitting(c, heard + [msg])
  {
    RepliesSnoc(c, heard, 2, msg);
    ClearanceStays(c, heard, msg);
  }

  /** Wrong PINs only, or wrong PINs and then something that is none, do not name the PIN. */
  lemma NotNamed(serde: Serde, config: PinConfig, heard: seq<Message>, k: nat)
    requires forall i :: k <= i < |heard| ==> serde.pin.decode(heard[i].data) != Some(PinMessage(config.pin))
    ensures !Named(serde, config, heard, k)
  {
  }

  /** The right PIN after all tries comes too late. */
  lemma NotNamedInTime(serde: Serde, config: PinConfig, heard: seq<Message>, k: nat)
    requires k + config.maxTries as nat <= |heard| && WrongFrom(serde, config, heard, k, config.maxTries as nat)
    ensures !Named(serde, config, heard, k)
  {
  }

  lemma ClearanceStays(c: Config, heard: seq<Message>, msg: Message)
    ensures SenderTrustsPeer(c, heard) ==> SenderTrustsPeer(c, heard + [msg])
    ensures SenderCleared(c, heard) ==> SenderCleared(c, heard + [msg])
    ensures ReceiverTrustsPeer(c, heard) ==> ReceiverTrustsPeer(c, heard + [msg])
  {
    StartStays(c, heard, msg);
    if NeedsPin(c) {
      forall k: nat | Named(c.serde, c.pin.value, heard, k) ensures Named(c.serde, c.pin.value, heard + [msg], k) {
        var n: nat :| n < c.pin.value.maxTries as nat && k + n < |heard| && NamedAfter(c.serde, c.pin.value, heard, k, n);
        assert NamedAfter(c.serde, c.pin.value, heard + [msg], k, n);
      }
    }
  }

  lemma GuessJudged(c: Config, heard: seq<Message>, tries: nat, msg: Message, pin: string)
    requires Guessing(c, heard, tries) && ParsePin(c.serde, msg) == Some(pin)
    ensures pin == c.pin.value.pin ==> Named(c.serde, c.pin.value, heard + [msg], |heard| - tries)
    ensures pin != c.pin.value.pin && tries + 1 < c.pin.value.maxTries as nat ==> Guessing(c, heard + [msg], tries + 1)
  {
    if pin == c.pin.value.pin {
      assert NamedAfter(c.serde, c.pin.value, heard + [msg], |heard| - tries, tries);
    }
  }

  /** The sender's own challenge begins. */
  lemma ChallengeGate(c: Config, files: seq<FileDto>, heard: seq<Message>, t: S.Task)
    requires SenderTrustsPeer(c, heard) && ChallengeStart(c, heard) == Some(|heard|) && !t.listed
    ensures SenderGate(c, heard, S.Challenge(c, files, t).task)
  {
    hide SenderTrustsPeer;
    if NeedsPin(c) {
      NotNamed(c.serde, c.pin.value, heard, |heard|);
    }
  }

  lemma TokenGate(c: Config, files: seq<FileDto>, heard: seq<Message>, t: S.Task, msg: Message)
    requires t.stage.AwaitToken? && SenderGate(c, heard, t)
    ensures SenderGate(c, heard + [msg], S.OnToken(c, files, t, t.stage.nonce, msg).task)
  {
    hide Trust, Proven, ReadNonce, S.Challenge;
    if msg.isString && c.serde.tokenResponse.decode(msg.data).Some? {
      var response := c.serde.tokenResponse.decode(msg.data).value;
      if !response.TokenInvalidSignature? {
        TrustIffProven(c, response.token, t.stage.nonce);
      }
    }
    if SenderTrustsPeer(c, heard + [msg]) && c.serde.tokenResponse.decode(msg.data).value.TokenOk? {
      ChallengeGate(c, files, heard + [msg], t);
    }
  }

  lemma ReplyGate(c: Config, files: seq<FileDto>, heard: seq<Message>, t: S.Task, msg: Message)
    requires t.stage.AwaitPinReply? && SenderGate(c, heard, t)
    ensures SenderGate(c, heard + [msg], S.OnPinReply(c, files, t, msg).task)
  {
    hide SenderTrustsPeer, S.Challenge, ChallengeStart, Named;
    ClearanceStays(c, heard, msg);
    StartsWithOk(c, heard, msg);
    if PinReplyIn(c, msg) == Some(PinOk) {
      ChallengeGate(c, files, heard + [msg], t);
    }
  }

  /** One more PIN, or something else, in the sender's challenge. */
  lemma PinGate(c: Config, files: seq<FileDto>, heard: seq<Message>, t: S.Task, msg: Message)
    requires t.stage.AwaitPin? && SenderGate(c, heard, t)
    ensures SenderGate(c, heard + [msg], S.OnPin(c, files, t, t.stage.tries, msg).task)
  {
    hide SenderTrustsPeer, ChallengeStart, Named;
    var start := |heard| - t.stage.tries;
    ClearanceStays(c, heard, msg);
    StartStays(c, heard, msg);
    NotNamed(c.serde, c.pin.value, heard, start);
    if ParsePin(c.serde, msg).Some? {
      GuessJudged(c, heard, t.stage.tries, msg, ParsePin(c.serde, msg).value);
    }
    if ParsePin(c.serde, msg) != Some(c.pin.value.pin) {
      NotNamed(c.serde, c.pin.value, heard + [msg], start);
    }
  }

  lemma SenderHears(c: Config, files: seq<FileDto>, heard: seq<Message>, t: S.Task, msg: Message)
    requires S.Listening(t) && SenderGate(c, heard, t)
    ensures SenderGate(c, heard + [msg], S.OnMessage(c, files, t, msg).task)
  {
    match t.stage
    case AwaitNonce =>
      hide ReadNonce;
    case AwaitToken(_) =>
      hide SenderGate, S.OnToken;
      TokenGate(c, files, heard, t, msg);
    case AwaitPinReply =>
      hide SenderGate, S.OnPinReply;
      ReplyGate(c, files, heard, t, msg);
    case AwaitPin(_) =>
      hide SenderGate, S.OnPin;
      PinGate(c, files, heard, t, msg);
    case _ =>
      hide SenderCleared;
      ClearanceStays(c, heard, msg);
  }

  lemma SenderActed(c: Config, heard: seq<Message>, t: S.Task, a: S.Action)
    requires S.CanAct(t, a) && SenderGate(c, heard, t)
    ensures SenderGate(c, heard, S.OnAction(c, t, a).task)
  {
    hide SenderTrustsPeer, SenderCleared;
  }

  lemma {:induction false} SenderGateHolds(c: Config, files: seq<FileDto>, events: seq<Event<S.Action>>)
    requires SenderAfter(c, files, events).Some?
    ensures SenderGate(c, Messages(events), SenderAfter(c, files, events).value.task)
    decreases |events|
  {
    hide SenderGate;
    if events == [] {
      BeginGate(c);
    } else {
      var n := |events| - 1;
      SenderGateHolds(c, files, events[..n]);
      var heard, t := Messages(events[..n]), SenderAfter(c, files, events[..n]).value.task;
      match events[n]
      case Heard(msg) => SenderHears(c, files, heard, t, msg);
      case Acted(a) =>
        SenderActed(c, heard, t, a);
        assert heard + [] == heard;
    }
  }

  lemma BeginGate(c: Config)
    ensures SenderGate(c, [], S.Begin(c).task) && ReceiverGate(c, [], R.Begin(c).task)
  {
  }

  /** As long as the list did not go out, what the sender emits is the same whatever the files are. */
  lemma {:induction false} NothingOfTheFiles(c: Config, files: seq<FileDto>, files': seq<FileDto>,
                                             events: seq<Event<S.Action>>)
    requires SenderAfter(c, files, events).Some? && !SenderAfter(c, files, events).value.task.listed
    ensures SenderAfter(c, files', events) == SenderAfter(c, files, events)
    decreases |events|
  {
    if events != [] {
      var n := |events| - 1;
      var t := SenderAfter(c, files, events[..n]).value.task;
      if t.listed {
        ListedStays(c, files, t, events[n]);
      }
      NothingOfTheFiles(c, files, files', events[..n]);
      UnlistedStep(c, files, files', t, events[n]);
    }
  }

  lemma ListedStays(c: Config, files: seq<FileDto>, t: S.Task, e: Event<S.Action>)
    requires SenderReady(t, e) && t.listed
    ensures SenderStep(c, files, t, e).task.listed
  {
    hide Trust, ReadNonce, OwnToken;
  }

  lemma UnlistedStep(c: Config, files: seq<FileDto>, files': seq<FileDto>, t: S.Task, e: Event<S.Action>)
    requires SenderReady(t, e) && !SenderStep(c, files, t, e).task.listed
    ensures SenderStep(c, files', t, e) == SenderStep(c, files, t, e)
  {
    hide Trust, ReadNonce, OwnToken;
  }

  /** The list goes out exactly when the peer is cleared: its token proved the expected key for the nonce of this session,
      and, if a PIN is set, the right one came within the allowed tries, counted from the start of the challenge. */
  lemma ListedIffCleared(c: Config, files: seq<FileDto>, events: seq<Event<S.Action>>)
    requires SenderAfter(c, files, events).Some?
    ensures SenderAfter(c, files, events).value.task.listed <==> SenderCleared(c, Messages(events))
  {
    SenderGateHolds(c, files, events);
  }

  /** Until then the sender keeps its files to itself. */
  lemma FilesKeptUntilCleared(c: Config, files: seq<FileDto>, files': seq<FileDto>, events: seq<Event<S.Action>>)
    requires SenderAfter(c, files, events).Some? && !SenderCleared(c, Messages(events))
    ensures SenderAfter(c, files', events) == SenderAfter(c, files, events)
  {
    ListedIffCleared(c, files, events);
    NothingOfTheFiles(c, files, files', events);
  }

  /** A peer that never named the PIN within the tries gets no list, whatever it names later. */
  lemma TooLate(c: Config, files: seq<FileDto>, events: seq<Event<S.Action>>)
    requires SenderAfter(c, files, events).Some? && NeedsPin(c)
    requires var (heard, start) := (Messages(events), ChallengeStart(c, Messages(events)));
             var max := c.pin.value.maxTries as nat;
             start.Some? && start.value + max <= |heard| && WrongFrom(c.serde, c.pin.value, heard, start.value, max)
    ensures !SenderAfter(c, files, events).value.task.listed
  {
    ListedIffCleared(c, files, events);
    NotNamedInTime(c.serde, c.pin.value, Messages(events), ChallengeStart(c, Messages(events)).value);
  }

  /** A token printed for any other nonce gets no list, whoever printed it, if a key is expected. */
  lemma ReplayGetsNoList(c: Config, files: seq<FileDto>, events: seq<Event<S.Action>>, response: TokenResponse,
                         signer: Token.SigningKey, earlier: bytes)
    requires SenderAfter(c, files, events).Some? && c.expecting.Some?
    requires var heard := Messages(events);
             && |heard| >= 2 && c.serde.tokenResponse.decode(heard[1].data) == Some(response)
             && !response.TokenInvalidSignature? && response.token == Token.GenerateNonce(c.crypto, signer, earlier)
             && forall remote :: ReadNonce(c.serde, heard[0]) == Some(remote) ==> earlier != c.nonce + remote
    ensures !SenderAfter(c, files, events).value.task.listed
  {
    var remote := ReadNonce(c.serde, Messages(events)[0]);
    ListedIffCleared(c, files, events);
    if remote.Some? {
      ReplayProvesNothing(c, signer, earlier, c.nonce + remote.value);
    }
  }

  // ---- The receiver -----------------------------------------------------------------------------

  ghost predicate ReceiverGate(c: Config, heard: seq<Message>, t: R.Task) {
    && (t.published <==> ListRead(c, heard).List?)
    && (t.published ==> t.setting.files == ListRead(c, heard).files)
    && (!t.published ==> t.setting.files == [] && t.loop == FileLoop.INITIAL)
    && match t.stage {
         case AwaitNonce => heard == []
         case AwaitToken(nonce) =>
           |heard| == 1 && ReadNonce(c.serde, heard[0]).Some?
           && nonce == ReadNonce(c.serde, heard[0]).value + c.nonce
         case AwaitPin(tries) =>
           ReceiverTrustsPeer(c, heard) && |heard| == 2 + tries && Guessing(c, heard, tries)
         case AwaitStatus(buffer) => ListRead(c, heard) == Partly(buffer)
         case EnterPin => ListRead(c, heard) == Partly([])
         case AwaitVerdict(buffer) => ListRead(c, heard) == Partly(buffer)
         case Ended(_) => true
         case _ => t.published
       }
  }

  lemma {:induction false} PastPinStays(serde: Serde, config: PinConfig, heard: seq<Message>, k: nat, tries: nat,
                                        msg: Message)
    requires PastPin(serde, config, heard, k, tries).Some?
    ensures PastPin(serde, config, heard + [msg], k, tries) == PastPin(serde, config, heard, k, tries)
    decreases tries
  {
    assert (heard + [msg])[k] == heard[k];
    if serde.pin.decode(heard[k].data).value.pin != config.pin {
      PastPinStays(serde, config, heard, k + 1, tries - 1, msg);
    }
  }

  /** Only wrong PINs so far, and one more message. */
  lemma {:induction false} PastPinSnoc(serde: Serde, config: PinConfig, heard: seq<Message>, k: nat, tries: nat,
                                       msg: Message)
    requires k <= |heard| && WrongFrom(serde, config, heard, k, |heard| - k)
    ensures PastPin(serde, config, heard, k, tries) == None
    ensures PastPin(serde, config, heard + [msg], k, tries)
         == if |heard| - k < tries && serde.pin.decode(msg.data) == Some(PinMessage(config.pin)) then Some(|heard| + 1)
            else None
    decreases tries
  {
    if tries > 0 && k < |heard| {
      assert (heard + [msg])[k] == heard[k];
      PastPinSnoc(serde, config, heard, k + 1, tries - 1, msg);
    }
  }

  /** What was read from a cleared peer is only added to. */
  lemma ReadStays(c: Config, heard: seq<Message>, msg: Message)
    requires !ListRead(c, heard).Nothing?
    ensures ListRead(c, heard + [msg]) == ReadMore(c, ListRead(c, heard), msg)
  {
    ClearanceStays(c, heard, msg);
    if NeedsPin(c) {
      PastPinStays(c.serde, c.pin.value, heard, 2, c.pin.value.maxTries as nat, msg);
    }
    var start := ListStart(c, heard).value;
    assert (heard + [msg])[start..] == heard[start..] + [msg];
    assert (heard[start..] + [msg])[..|heard[start..]|] == heard[start..];
  }

  lemma NothingReadYet(c: Config, heard: seq<Message>)
    requires ReceiverTrustsPeer(c, heard) && ListStart(c, heard) == Some(|heard|)
    ensures ListRead(c, heard) == Partly([])
  {
    assert heard[|heard|..] == [];
  }

  lemma ReceiverTokenGate(c: Config, heard: seq<Message>, t: R.Task, msg: Message)
    requires t.stage.AwaitToken? && ReceiverGate(c, heard, t)
    ensures ReceiverGate(c, heard + [msg], R.OnToken(c, t, t.stage.nonce, msg).task)
  {
    hide Trust, Proven, ReadNonce, OwnToken;
    var heard' := heard + [msg];
    if msg.isString && c.serde.tokenRequest.decode(msg.data).Some? {
      TrustIffProven(c, c.serde.tokenRequest.decode(msg.data).value.token, t.stage.nonce);
    }
    if NeedsPin(c) {
      PastPinSnoc(c.serde, c.pin.value, heard', 2, c.pin.value.maxTries as nat, msg);
    } else if ReceiverTrustsPeer(c, heard') {
      NothingReadYet(c, heard');
    }
  }

  lemma ReceiverPinGate(c: Config, heard: seq<Message>, t: R.Task, msg: Message)
    requires t.stage.AwaitPin? && ReceiverGate(c, heard, t)
    ensures ReceiverGate(c, heard + [msg], R.OnPin(c, t, t.stage.tries, msg).task)
  {
    hide ReceiverTrustsPeer, Named;
    ClearanceStays(c, heard, msg);
    var max := c.pin.value.maxTries as nat;
    PastPinSnoc(c.serde, c.pin.value, heard, 2, max, msg);
    if ListStart(c, heard + [msg]).Some? {
      NothingReadYet(c, heard + [msg]);
    }
    if ParsePin(c.serde, msg).Some? {
      GuessJudged(c, heard, t.stage.tries, msg, ParsePin(c.serde, msg).value);
    }
  }

  /** The first string after the clearance. */
  lemma StatusGate(c: Config, heard: seq<Message>, t: R.Task, msg: Message)
    requires t.stage.AwaitStatus? && ReceiverGate(c, heard, t)
    ensures ReceiverGate(c, heard + [msg], R.OnMessage(c, t, msg).task)
  {
    hide ListRead, ReceiverTrustsPeer, ReadNonce, Guessing, R.OnVerdict, R.OnFile;
    ReadStays(c, heard, msg);
  }

  /** A reply to a PIN of the user. */
  lemma VerdictGate(c: Config, heard: seq<Message>, t: R.Task, msg: Message)
    requires t.stage.AwaitVerdict? && ReceiverGate(c, heard, t)
    ensures ReceiverGate(c, heard + [msg], R.OnMessage(c, t, msg).task)
  {
    hide ListRead, ReceiverTrustsPeer, ReadNonce, Guessing, R.OnStatus, R.OnFile;
    ReadStays(c, heard, msg);
  }

  lemma FilesGate(c: Config, heard: seq<Message>, t: R.Task, msg: Message)
    requires t.stage.Files? && ReceiverGate(c, heard, t)
    ensures ReceiverGate(c, heard + [msg], R.OnMessage(c, t, msg).task)
  {
    hide ListRead, FileLoop.Turn, ReceiverTrustsPeer, ReadNonce, Guessing, R.OnStatus, R.OnVerdict;
    ReadStays(c, heard, msg);
  }

  lemma ReceiverHears(c: Config, heard: seq<Message>, t: R.Task, msg: Message)
    requires R.Listening(t) && ReceiverGate(c, heard, t)
    ensures ReceiverGate(c, heard + [msg], R.OnMessage(c, t, msg).task)
  {
    match t.stage
    case AwaitNonce =>
      hide ReadNonce;
    case AwaitToken(_) =>
      hide ReceiverGate, R.OnToken;
      ReceiverTokenGate(c, heard, t, msg);
    case AwaitPin(_) =>
      hide ReceiverGate, R.OnPin;
      ReceiverPinGate(c, heard, t, msg);
    case AwaitStatus(_) =>
      hide ReceiverGate, R.OnMessage;
      StatusGate(c, heard, t, msg);
    case AwaitVerdict(_) =>
      hide ReceiverGate, R.OnMessage;
      VerdictGate(c, heard, t, msg);
    case Files =>
      hide ReceiverGate, R.OnMessage;
      FilesGate(c, heard, t, msg);
  }

  lemma ReceiverActed(c: Config, heard: seq<Message>, t: R.Task, a: R.Action)
    requires R.CanAct(t, a) && ReceiverGate(c, heard, t)
    ensures ReceiverGate(c, heard, R.OnAction(c, t, a).task)
  {
    hide ListRead;
  }

  lemma {:induction false} ReceiverGateHolds(c: Config, events: seq<Event<R.Action>>)
    requires ReceiverAfter(c, events).Some?
    ensures ReceiverGate(c, Messages(events), ReceiverAfter(c, events).value)
    decreases |events|
  {
    hide ReceiverGate;
    if events == [] {
      BeginGate(c);
    } else {
      var n := |events| - 1;
      ReceiverGateHolds(c, events[..n]);
      var heard, t := Messages(events[..n]), ReceiverAfter(c, events[..n]).value;
      match events[n]
      case Heard(msg) => ReceiverHears(c, heard, t, msg);
      case Acted(a) =>
        ReceiverActed(c, heard, t, a);
        assert heard + [] == heard;
    }
  }

  /** The receiver shows its user a file list exactly when the peer is cleared, with a token that proves the expected key
      for the nonce of this session and, if a PIN is set, the right one within the allowed tries, and then sent one,
      possibly after asking for a PIN of its own; and it shows that very list. */
  lemma PublishedIffListed(c: Config, events: seq<Event<R.Action>>)
    requires ReceiverAfter(c, events).Some?
    ensures var (t, reading) := (ReceiverAfter(c, events).value, ListRead(c, Messages(events)));
            && (t.published <==> reading.List?)
            && (t.published ==> t.setting.files == reading.files)
  {
    ReceiverGateHolds(c, events);
  }

  /** Until the peer is cleared nothing is shown and no file is taken. */
  lemma NothingShownUntilCleared(c: Config, events: seq<Event<R.Action>>)
    requires ReceiverAfter(c, events).Some? && !ReceiverCleared(c, Messages(events))
    ensures var t := ReceiverAfter(c, events).value;
            && !t.published && t.setting.files == [] && t.loop == FileLoop.INITIAL
            && !t.stage.Select? && !t.stage.Files? && !t.stage.AwaitUser?
  {
    ReceiverGateHolds(c, events);
  }

  /** Nor is anything shown for such a token. */
  lemma ReplayShowsNothing(c: Config, events: seq<Event<R.Action>>, request: TokenRequest,
                           signer: Token.SigningKey, earlier: bytes)
    requires ReceiverAfter(c, events).Some? && c.expecting.Some?
    requires var heard := Messages(events);
             && |heard| >= 2 && c.serde.tokenRequest.decode(heard[1].data) == Some(request)
             && request.token == Token.GenerateNonce(c.crypto, signer, earlier)
             && forall remote :: ReadNonce(c.serde, heard[0]) == Some(remote) ==> earlier != remote + c.nonce
    ensures !ReceiverAfter(c, events).value.published
  {
    var remote := ReadNonce(c.serde, Messages(events)[0]);
    if remote.Some? {
      ReplayProvesNothing(c, signer, earlier, remote.value + c.nonce);
    }
    NothingShownUntilCleared(c, events);
  }
}

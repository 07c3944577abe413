/** The PIN challenge: `VerifyPin` on the side that knows the PIN, `HandlePin` on the side that must supply it. */
module PinCheck {
  import opened Basics
  import opened Framing
  import opened Protocol

  datatype Notice = Required | TooMany

  /** What the verifier does with the PIN it last heard, after `tries` of them. */
  datatype Judgement = Accept | Exhausted | AskAgain

  function Judge(config: PinConfig, remotePin: string, tries: nat): Judgement {
    if remotePin == config.pin then Accept
    else if tries >= config.maxTries as nat then Exhausted
    else AskAgain
  }

  datatype VerifyResult = Verified | TooManyRequests | Malformed | Closed

  function ParsePin(serde: Serde, msg: Message): Option<string> {
    match serde.pin.decode(msg.data)
    case None => None
    case Some(m) => Some(m.pin)
  }

  /** A message that is neither a wrong PIN nor skipped: it is malformed, or it is the PIN. */
  predicate Decisive(serde: Serde, config: PinConfig, msg: Message) {
    ParsePin(serde, msg) == None || ParsePin(serde, msg) == Some(config.pin)
  }

  /** The number of messages before the first decisive one. */
  function WrongGuesses(serde: Serde, config: PinConfig, msgs: seq<Message>): (n: nat)
    ensures n <= |msgs|
    ensures forall i :: 0 <= i < n ==> !Decisive(serde, config, msgs[i])
    ensures n < |msgs| ==> Decisive(serde, config, msgs[n])
  {
    if msgs == [] || Decisive(serde, config, msgs[0]) then 0
    else 1 + WrongGuesses(serde, config, msgs[1..])
  }

  function Notices(attempts: nat, sendInitialNotice: bool): seq<Notice> {
    seq(if sendInitialNotice || attempts == 0 then attempts else attempts - 1, _ => Required)
  }

  /** The challenge as a whole, for the messages `msgs` on the way: its result, the messages it leaves unread, and the
      notices it sends. A PIN within the allowed number of tries decides it, and so does the first message that is none. */
  function Verification(serde: Serde, config: PinConfig, msgs: seq<Message>, sendInitialNotice: bool)
    : (VerifyResult, seq<Message>, seq<Notice>)
  {
    if config.pin == "" then (Verified, msgs, [])
    else
      var max, wrong := config.maxTries as nat, WrongGuesses(serde, config, msgs);
      if wrong >= max then (TooManyRequests, msgs[max..], Notices(max, sendInitialNotice) + [TooMany])
      else if wrong == |msgs| then (Closed, [], Notices(wrong + 1, sendInitialNotice))
      else
        (if ParsePin(serde, msgs[wrong]) == Some(config.pin) then Verified else Malformed,
         msgs[wrong + 1..], Notices(wrong + 1, sendInitialNotice))
  }

  /** The messages in which the notices are sent. */
  function Sent(sendResult: Notice -> seq<Message>, notices: seq<Notice>): seq<Message> {
    if notices == [] then [] else sendResult(notices[0]) + Sent(sendResult, notices[1..])
  }

  lemma {:induction false} SentSnoc(sendResult: Notice -> seq<Message>, notices: seq<Notice>, last: Notice)
    ensures Sent(sendResult, notices + [last]) == Sent(sendResult, notices) + sendResult(last)
  {
    if notices == [] {
      assert [last][1..] == [] && [] + [last] == [last];
    } else {
      SentSnoc(sendResult, notices[1..], last);
      assert (notices + [last])[1..] == notices[1..] + [last];
    }
  }

  lemma NothingSent(sendResult: Notice -> seq<Message>)
    ensures Sent(sendResult, []) == []
  {
  }

  /** Challenges the peer behind `rx` until it names the PIN, runs out of tries, talks nonsense or is gone. */
  method VerifyPin(serde: Serde, config: PinConfig, rx: Receiver<Message>, tx: Sender<Message>,
                   sendInitialNotice: bool, sendResult: Notice -> seq<Message>) returns (result: VerifyResult)
    requires tx.limit.None?
    modifies rx, tx
    ensures (result, rx.items, tx.sent) ==
            var (result', rest, notices) := Verification(serde, config, old(rx.items), sendInitialNotice);
            (result', rest, old(tx.sent) + Sent(sendResult, notices))
  {
    hide Sent;
    assert Sent(sendResult, []) == [] by { NothingSent(sendResult); }
    ghost var items, sent := rx.items, tx.sent;
    ghost var wrong := WrongGuesses(serde, config, items);
    var notice := sendInitialNotice;
    var remotePin := "";
    var pinTry: u8 := 0;
    assert Notices(0, sendInitialNotice) == [] && sent + [] == sent;
    while true
      invariant pinTry as nat <= |items| && rx.items == items[pinTry as nat..]
      invariant pinTry <= config.maxTries
      invariant pinTry == 0 ==> remotePin == "" && notice == sendInitialNotice
      invariant pinTry > 0 ==> !notice && config.pin != "" && ParsePin(serde, items[pinTry as nat - 1]) == Some(remotePin)
      invariant pinTry > 0 ==> wrong >= pinTry as nat - 1
      invariant tx.sent == sent + Sent(sendResult, Notices(pinTry as nat, sendInitialNotice))
      decreases config.maxTries - pinTry
    {
      ghost var notices := Notices(pinTry as nat, sendInitialNotice);
      if remotePin == config.pin {
        return Verified;
      }
      assert wrong >= pinTry as nat;
      if pinTry >= config.maxTries {
        SendAll(sendResult(TooMany), tx);
        SentSnoc(sendResult, notices, TooMany);
        assert tx.sent == sent + Sent(sendResult, notices + [TooMany]);
        return TooManyRequests;
      }
      if notice || pinTry > 0 {
        notice := false;
        SendAll(sendResult(Required), tx);
        SentSnoc(sendResult, notices, Required);
        assert Notices(pinTry as nat + 1, sendInitialNotice) == notices + [Required];
      } else {
        assert Notices(pinTry as nat + 1, sendInitialNotice) == notices;
      }
      assert tx.sent == sent + Sent(sendResult, Notices(pinTry as nat + 1, sendInitialNotice));
      var msg := rx.Recv();
      if msg.None? {
        return Closed;
      }
      assert msg.value == items[pinTry as nat] && rx.items == items[pinTry as nat + 1..];
      var parsed := ParsePin(serde, msg.value);
      if parsed.None? {
        assert Decisive(serde, config, items[pinTry as nat]) && wrong == pinTry as nat && config.pin != "";
        assert Verification(serde, config, items, sendInitialNotice)
            == (Malformed, items[wrong + 1..], Notices(wrong + 1, sendInitialNotice));
        assert tx.sent == sent + Sent(sendResult, Notices(wrong + 1, sendInitialNotice));
        assert rx.items == items[wrong + 1..];
        return Malformed;
      }
      remotePin := parsed.value;
      pinTry := pinTry + 1;
    }
  }

  /** The channel is found closed only after everything on it was read. */
  lemma ClosedReadsAll(serde: Serde, config: PinConfig, msgs: seq<Message>, sendInitialNotice: bool)
    ensures Verification(serde, config, msgs, sendInitialNotice).0.Closed? ==>
              Verification(serde, config, msgs, sendInitialNotice).1 == []
  {
  }

  /** How the reply to a submitted PIN is understood. */
  datatype ChallengeReply<+T> = Passed(value: T) | TryAgain | GiveUp | Unreadable

  datatype HandleResult<+T> =
    | Entered(value: T)
    | NoMoreAttempts
    | BadReply
    | NoPin
    | ChannelClosed

  /** The outcome for given PIN entries and incoming messages: the result, the number of PINs submitted and
      the messages left unread. */
  function Handled<T>(entries: seq<string>, msgs: seq<Message>, inChunks: bool, parse: bytes -> ChallengeReply<T>)
    : (HandleResult<T>, nat, seq<Message>)
  {
    if entries == [] then (NoPin, 0, msgs)
    else if !inChunks && msgs == [] then (ChannelClosed, 1, [])
    else if !inChunks && !msgs[0].isString then (BadReply, 1, msgs[1..])
    else
      var (payload, rest) := if inChunks then TakeString(msgs) else (msgs[0].data, msgs[1..]);
      match parse(payload)
      case Passed(value) => (Entered(value), 1, rest)
      case GiveUp => (NoMoreAttempts, 1, rest)
      case Unreadable => (BadReply, 1, rest)
      case TryAgain =>
        var (result, n, rest') := Handled(entries[1..], rest, inChunks, parse);
        (result, n + 1, rest')
  }

  function PinTexts(serde: Serde, pins: seq<string>): (msgs: seq<Message>)
    ensures |msgs| == |pins|
  {
    seq(|pins|, i requires 0 <= i < |pins| => Text(serde.pin.encode(PinMessage(pins[i]))))
  }

  lemma PinTextsJoin(serde: Serde, sent: seq<Message>, a: seq<string>, b: seq<string>)
    ensures PinTexts(serde, []) == [] && sent + [] == sent
    ensures sent + PinTexts(serde, a) + PinTexts(serde, b) == sent + PinTexts(serde, a + b)
  {
    assert PinTexts(serde, a + b) == PinTexts(serde, a) + PinTexts(serde, b);
  }

  lemma {:induction false} HandledBound<T>(entries: seq<string>, msgs: seq<Message>, inChunks: bool,
                                           parse: bytes -> ChallengeReply<T>)
    ensures Handled(entries, msgs, inChunks, parse).1 <= |entries|
  {
    if entries != [] && (inChunks || (msgs != [] && msgs[0].isString)) {
      var rest := if inChunks then TakeString(msgs).1 else msgs[1..];
      HandledBound(entries[1..], rest, inChunks, parse);
    }
  }

  /** The user is asked for a PIN in vain only after all entries were submitted. */
  lemma {:induction false} NoPinLeft<T>(entries: seq<string>, msgs: seq<Message>, inChunks: bool,
                                        parse: bytes -> ChallengeReply<T>)
    ensures Handled(entries, msgs, inChunks, parse).0.NoPin? ==> Handled(entries, msgs, inChunks, parse).1 == |entries|
  {
    if entries != [] && (inChunks || (msgs != [] && msgs[0].isString)) {
      var rest := if inChunks then TakeString(msgs).1 else msgs[1..];
      NoPinLeft(entries[1..], rest, inChunks, parse);
    }
  }

  /** Submits one PIN after the other until the peer passes the challenge or ends it. */
  method HandlePin<T>(serde: Serde, entries: Receiver<string>, rx: Receiver<Message>, tx: Sender<Message>,
                      inChunks: bool, parse: bytes -> ChallengeReply<T>) returns (result: HandleResult<T>)
    requires tx.limit.None?
    modifies entries, rx, tx
    ensures var (result', n, rest) := Handled(old(entries.items), old(rx.items), inChunks, parse);
            && result == result'
            && rx.items == rest
            && n <= |old(entries.items)|
            && entries.items == old(entries.items)[n..]
            && tx.sent == old(tx.sent) + PinTexts(serde, old(entries.items)[..n])
  {
    ghost var pins, sent := entries.items, tx.sent;
    ghost var whole := Handled(pins, rx.items, inChunks, parse);
    ghost var n := 0;
    HandledBound(pins, rx.items, inChunks, parse);
    while true
      invariant 0 <= n <= |pins| && entries.items == pins[n..]
      invariant tx.sent == sent + PinTexts(serde, pins[..n])
      invariant var (result', m, rest) := Handled(entries.items, rx.items, inChunks, parse);
                whole == (result', n + m, rest)
      decreases |entries.items|
    {
      var pin := entries.Recv();
      if pin.None? {
        return NoPin;
      }
      var ok := tx.Send(Text(serde.pin.encode(PinMessage(pin.value))));
      n := n + 1;
      assert pins[..n] == pins[..n - 1] + [pin.value];
      var payload: bytes;
      if inChunks {
        payload := ReceiveStringFromChunks(rx);
      } else {
        var msg := rx.Recv();
        if msg.None? {
          return ChannelClosed;
        }
        if !msg.value.isString {
          return BadReply;
        }
        payload := msg.value.data;
      }
      match parse(payload)
      case Passed(value) =>
        return Entered(value);
      case GiveUp =>
        return NoMoreAttempts;
      case Unreadable =>
        return BadReply;
      case TryAgain =>
    }
  }
}

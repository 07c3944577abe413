/** The session's machines take their PIN challenges exactly as `VerifyPin` does. */
module PinRefinement {
  import opened Basics
  import opened Framing
  import opened Handshake
  import opened Model
  import opened PinCheck
  import opened Protocol
  import S = Sending
  import R = Receiving

  /** The challenge from the point where `remotePin` is about to be judged, after `tries` PINs. */
  function Judged(serde: Serde, config: PinConfig, remotePin: string, tries: nat, msgs: seq<Message>,
                  sendInitialNotice: bool): (VerifyResult, seq<Message>, seq<Notice>)
    decreases |msgs|
  {
    match Judge(config, remotePin, tries)
    case Accept => (Verified, msgs, [])
    case Exhausted => (TooManyRequests, msgs, [TooMany])
    case AskAgain =>
      var asked := Asked(1, tries, sendInitialNotice);
      if msgs == [] then (Closed, [], asked)
      else
        match ParsePin(serde, msgs[0])
        case None => (Malformed, msgs[1..], asked)
        case Some(pin) =>
          var (result, rest, notices) := Judged(serde, config, pin, tries + 1, msgs[1..], sendInitialNotice);
          (result, rest, asked + notices)
  }

  /** The requests for `n` PINs in a row, when `tries` were heard before. */
  function Asked(n: nat, tries: nat, sendInitialNotice: bool): seq<Notice> {
    if tries > 0 then Notices(n, true) else Notices(n, sendInitialNotice)
  }

  lemma AskedMore(n: nat, tries: nat, sendInitialNotice: bool)
    ensures Asked(1, tries, sendInitialNotice) + Asked(n, tries + 1, sendInitialNotice)
         == Asked(n + 1, tries, sendInitialNotice)
  {
  }

  /** The outcome in closed form, when the last PIN heard was wrong. */
  function Tally(serde: Serde, config: PinConfig, tries: nat, msgs: seq<Message>, sendInitialNotice: bool)
    : (VerifyResult, seq<Message>, seq<Notice>)
    requires tries <= config.maxTries as nat
  {
    var left, wrong := config.maxTries as nat - tries, WrongGuesses(serde, config, msgs);
    if wrong >= left then (TooManyRequests, msgs[left..], Asked(left, tries, sendInitialNotice) + [TooMany])
    else if wrong == |msgs| then (Closed, [], Asked(wrong + 1, tries, sendInitialNotice))
    else
      (if ParsePin(serde, msgs[wrong]) == Some(config.pin) then Verified else Malformed,
       msgs[wrong + 1..], Asked(wrong + 1, tries, sendInitialNotice))
  }

  lemma TallyStep(serde: Serde, config: PinConfig, tries: nat, msgs: seq<Message>, sendInitialNotice: bool)
    requires tries < config.maxTries as nat && msgs != [] && !Decisive(serde, config, msgs[0])
    ensures var (result, rest, notices) := Tally(serde, config, tries + 1, msgs[1..], sendInitialNotice);
            Tally(serde, config, tries, msgs, sendInitialNotice)
            == (result, rest, Asked(1, tries, sendInitialNotice) + notices)
  {
    hide Asked, ParsePin, WrongGuesses;
    var left, wrong := config.maxTries as nat - tries, WrongGuesses(serde, config, msgs[1..]);
    WrongFirst(serde, config, msgs);
    var asked := Asked(1, tries, sendInitialNotice);
    if wrong + 1 >= left {
      AskedMore(left - 1, tries, sendInitialNotice);
      var later := Asked(left - 1, tries + 1, sendInitialNotice);
      assert asked + (later + [TooMany]) == asked + later + [TooMany];
      assert msgs[1..][left - 1..] == msgs[left..];
    } else {
      AskedMore(wrong + 1, tries, sendInitialNotice);
    }
  }

  lemma WrongFirst(serde: Serde, config: PinConfig, msgs: seq<Message>)
    requires msgs != [] && !Decisive(serde, config, msgs[0])
    ensures WrongGuesses(serde, config, msgs) == 1 + WrongGuesses(serde, config, msgs[1..])
  {
  }

  lemma {:induction false} JudgedWrong(serde: Serde, config: PinConfig, remotePin: string, tries: nat,
                                       msgs: seq<Message>, sendInitialNotice: bool)
    requires remotePin != config.pin && tries <= config.maxTries as nat
    ensures Judged(serde, config, remotePin, tries, msgs, sendInitialNotice)
         == Tally(serde, config, tries, msgs, sendInitialNotice)
    decreases |msgs|
  {
    hide Asked;
    if tries == config.maxTries as nat {
      assert Asked(0, tries, sendInitialNotice) == [] by { NoneAsked(tries, sendInitialNotice); }
      assert [] + [TooMany] == [TooMany];
    } else if msgs != [] {
      var asked := Asked(1, tries, sendInitialNotice);
      assert asked + [] == asked;
      if !Decisive(serde, config, msgs[0]) {
        hide Tally;
        JudgedWrong(serde, config, ParsePin(serde, msgs[0]).value, tries + 1, msgs[1..], sendInitialNotice);
        TallyStep(serde, config, tries, msgs, sendInitialNotice);
      }
    }
  }

  lemma NoneAsked(tries: nat, sendInitialNotice: bool)
    ensures Asked(0, tries, sendInitialNotice) == []
  {
  }

  /** Judging PIN after PIN gives the challenge as a whole. */
  lemma JudgedIsVerification(serde: Serde, config: PinConfig, msgs: seq<Message>, sendInitialNotice: bool)
    ensures Judged(serde, config, "", 0, msgs, sendInitialNotice) == Verification(serde, config, msgs, sendInitialNotice)
  {
    if config.pin != "" {
      JudgedWrong(serde, config, "", 0, msgs, sendInitialNotice);
    }
  }

  // ---- The receiver as verifier -----------------------------------------------------------------

  /** Feeds `msgs` to the receiver for as long as it waits for a PIN: where it gets to, what it sent, what is left. */
  function ReceiverFed(c: Config, t: R.Task, msgs: seq<Message>): (R.Step, seq<Message>)
    decreases |msgs|
  {
    if !t.stage.AwaitPin? || msgs == [] then (R.Step(t, []), msgs)
    else
      var step := R.OnPin(c, t, t.stage.tries, msgs[0]);
      var (step', rest) := ReceiverFed(c, step.task, msgs[1..]);
      (R.Step(step'.task, step.out + step'.out), rest)
  }

  function ReceiverNotices(c: Config, notices: seq<Notice>): seq<Message> {
    if notices == [] then []
    else
      R.PinReply(c, if notices[0].Required? then PinRequired else PinTooManyAttempts)
      + ReceiverNotices(c, notices[1..])
  }

  /** How the receiver sends a notice. */
  function ReceiverSends(c: Config): Notice -> seq<Message> {
    (notice: Notice) => R.PinReply(c, if notice.Required? then PinRequired else PinTooManyAttempts)
  }

  lemma {:induction false} ReceiverNoticesSent(c: Config, notices: seq<Notice>)
    ensures Sent(ReceiverSends(c), notices) == ReceiverNotices(c, notices)
  {
    if notices != [] {
      ReceiverNoticesSent(c, notices[1..]);
    }
  }

  /** What follows from the result of the challenge on the receiving device. */
  predicate ReceiverConcludes(step: R.Step, c: Config, result: VerifyResult, notices: seq<Notice>) {
    && step.out == ReceiverNotices(c, notices) + (if result.Verified? then R.PinReply(c, PinOk) else [])
    && match result
       case Verified => step.task.stage == R.AwaitStatus([])
       case TooManyRequests => step.task.stage == R.Ended(TooManyAttempts)
       case Malformed => step.task.stage == R.Ended(ProtocolError)
       case Closed => step.task.stage.AwaitPin?
  }

  /** One more PIN heard: the first step and everything after it. */
  lemma ReceiverHears(c: Config, t: R.Task, config: PinConfig, tries: nat, msgs: seq<Message>, pin: string)
    requires c.pin == Some(config) && msgs != [] && ParsePin(c.serde, msgs[0]) == Some(pin)
    requires t.stage == R.AwaitPin(tries)
    ensures var next := R.JudgePin(c, t, config, pin, tries + 1);
            var (step, rest) := ReceiverFed(c, next.task, msgs[1..]);
            ReceiverFed(c, t, msgs) == (R.Step(step.task, next.out + step.out), rest)
  {
    hide R.JudgePin;
  }

  lemma {:induction false} ReceiverJudges(c: Config, t: R.Task, config: PinConfig, remotePin: string, tries: nat,
                                          msgs: seq<Message>)
    requires c.pin == Some(config)
    ensures var first := R.JudgePin(c, t, config, remotePin, tries);
            var (step, rest) := ReceiverFed(c, first.task, msgs);
            var (result, rest', notices) := Judged(c.serde, config, remotePin, tries, msgs, false);
            rest == rest' && ReceiverConcludes(R.Step(step.task, first.out + step.out), c, result, notices)
    decreases |msgs|
  {
    hide ReceiverNotices, R.PinReply, ParsePin, Asked;
    ReceiverAsked(c, tries, []);
    ReceiverTold(c);
    var asked := Asked(1, tries, false);
    assert asked + [] == asked;
    var first := R.JudgePin(c, t, config, remotePin, tries);
    assert first.out + [] == first.out && [] + first.out == first.out;
    if Judge(config, remotePin, tries).AskAgain? && msgs != [] && ParsePin(c.serde, msgs[0]).Some? {
      hide ReceiverFed, ReceiverConcludes;
      var pin := ParsePin(c.serde, msgs[0]).value;
      ReceiverJudges(c, first.task, config, pin, tries + 1, msgs[1..]);
      ReceiverHears(c, first.task, config, tries, msgs, pin);
      var second := R.JudgePin(c, first.task, config, pin, tries + 1);
      var (step, _) := ReceiverFed(c, second.task, msgs[1..]);
      var (result, _, notices) := Judged(c.serde, config, pin, tries + 1, msgs[1..], false);
      ReceiverAskedFirst(c, first.out, R.Step(step.task, second.out + step.out), tries, result, notices);
    }
  }

  /** A request for a PIN before everything else. */
  lemma ReceiverAskedFirst(c: Config, out: seq<Message>, step: R.Step, tries: nat, result: VerifyResult,
                            notices: seq<Notice>)
    requires ReceiverConcludes(step, c, result, notices)
    requires out == (if tries == 0 then [] else R.PinReply(c, PinRequired))
    ensures ReceiverConcludes(R.Step(step.task, out + step.out), c, result, Asked(1, tries, false) + notices)
  {
    hide ReceiverNotices;
    ReceiverAsked(c, tries, notices);
    var last := if result.Verified? then R.PinReply(c, PinOk) else [];
    assert out + (ReceiverNotices(c, notices) + last) == out + ReceiverNotices(c, notices) + last;
  }

  lemma ReceiverTold(c: Config)
    ensures ReceiverNotices(c, [TooMany]) == R.PinReply(c, PinTooManyAttempts) && ReceiverNotices(c, []) == []
  {
    assert [TooMany][1..] == [];
  }

  lemma ReceiverAsked(c: Config, tries: nat, notices: seq<Notice>)
    ensures ReceiverNotices(c, Asked(1, tries, false) + notices)
         == (if tries == 0 then [] else R.PinReply(c, PinRequired)) + ReceiverNotices(c, notices)
  {
    var all := Asked(1, tries, false) + notices;
    if tries == 0 {
      assert all == notices;
    } else {
      assert all[0] == Required && all[1..] == notices;
    }
  }

  /** The receiver's machine runs the challenge of `VerifyPin` without an initial notice. */
  lemma ReceiverRefinesVerifyPin(c: Config, t: R.Task, config: PinConfig, msgs: seq<Message>)
    requires c.pin == Some(config)
    ensures var first := R.JudgePin(c, t, config, "", 0);
            var (step, rest) := ReceiverFed(c, first.task, msgs);
            var (result, rest', notices) := Verification(c.serde, config, msgs, false);
            rest == rest' && ReceiverConcludes(R.Step(step.task, first.out + step.out), c, result, notices)
  {
    JudgedIsVerification(c.serde, config, msgs, false);
    ReceiverJudges(c, t, config, "", 0, msgs);
  }

  // ---- The sender as verifier -------------------------------------------------------------------

  function SenderFed(c: Config, files: seq<FileDto>, t: S.Task, msgs: seq<Message>): (S.Step, seq<Message>)
    decreases |msgs|
  {
    if !t.stage.AwaitPin? || msgs == [] then (S.Step(t, []), msgs)
    else
      var step := S.OnPin(c, files, t, t.stage.tries, msgs[0]);
      var (step', rest) := SenderFed(c, files, step.task, msgs[1..]);
      (S.Step(step'.task, step.out + step'.out), rest)
  }

  function SenderNotices(c: Config, notices: seq<Notice>): seq<Message> {
    if notices == [] then []
    else
      S.PinReply(c, if notices[0].Required? then ListPinRequired else ListTooManyAttempts)
      + SenderNotices(c, notices[1..])
  }

  /** How the sender sends a notice. */
  function SenderSends(c: Config): Notice -> seq<Message> {
    (notice: Notice) => S.PinReply(c, if notice.Required? then ListPinRequired else ListTooManyAttempts)
  }

  lemma {:induction false} SenderNoticesSent(c: Config, notices: seq<Notice>)
    ensures Sent(SenderSends(c), notices) == SenderNotices(c, notices)
  {
    if notices != [] {
      SenderNoticesSent(c, notices[1..]);
    }
  }

  /** On the sending device success is not announced: the file list follows at once. */
  predicate SenderConcludes(step: S.Step, c: Config, files: seq<FileDto>, result: VerifyResult, notices: seq<Notice>) {
    && step.out == SenderNotices(c, notices) + (if result.Verified? then S.PinReply(c, ListOk(files)) else [])
    && match result
       case Verified => step.task.stage == S.AwaitSelection([]) && step.task.listed
       case TooManyRequests => step.task.stage == S.Ended(TooManyAttempts)
       case Malformed => step.task.stage == S.Ended(ProtocolError)
       case Closed => step.task.stage.AwaitPin?
  }

  /** One more PIN heard: the first step and everything after it. */
  lemma SenderHears(c: Config, files: seq<FileDto>, t: S.Task, config: PinConfig, tries: nat, msgs: seq<Message>, pin: string)
    requires c.pin == Some(config) && msgs != [] && ParsePin(c.serde, msgs[0]) == Some(pin)
    requires t.stage == S.AwaitPin(tries)
    ensures var next := S.JudgePin(c, files, t, config, pin, tries + 1);
            var (step, rest) := SenderFed(c, files, next.task, msgs[1..]);
            SenderFed(c, files, t, msgs) == (S.Step(step.task, next.out + step.out), rest)
  {
    hide S.JudgePin;
  }

  lemma {:induction false} SenderJudges(c: Config, files: seq<FileDto>, t: S.Task, config: PinConfig,
                                        remotePin: string, tries: nat, msgs: seq<Message>)
    requires c.pin == Some(config)
    ensures var first := S.JudgePin(c, files, t, config, remotePin, tries);
            var (step, rest) := SenderFed(c, files, first.task, msgs);
            var (result, rest', notices) := Judged(c.serde, config, remotePin, tries, msgs, true);
            rest == rest' && SenderConcludes(S.Step(step.task, first.out + step.out), c, files, result, notices)
    decreases |msgs|
  {
    hide SenderNotices, S.PinReply, ParsePin, Asked;
    SenderAsked(c, tries, []);
    SenderTold(c);
    var asked := Asked(1, tries, true);
    assert asked + [] == asked;
    var first := S.JudgePin(c, files, t, config, remotePin, tries);
    assert first.out + [] == first.out && [] + first.out == first.out;
    if Judge(config, remotePin, tries).AskAgain? && msgs != [] && ParsePin(c.serde, msgs[0]).Some? {
      hide SenderFed, SenderConcludes;
      var pin := ParsePin(c.serde, msgs[0]).value;
      SenderJudges(c, files, first.task, config, pin, tries + 1, msgs[1..]);
      SenderHears(c, files, first.task, config, tries, msgs, pin);
      var second := S.JudgePin(c, files, first.task, config, pin, tries + 1);
      var (step, _) := SenderFed(c, files, second.task, msgs[1..]);
      var (result, _, notices) := Judged(c.serde, config, pin, tries + 1, msgs[1..], true);
      SenderAskedFirst(c, files, first.out, S.Step(step.task, second.out + step.out), tries, result, notices);
    }
  }

  /** A request for a PIN before everything else. */
  lemma SenderAskedFirst(c: Config, files: seq<FileDto>, out: seq<Message>, step: S.Step, tries: nat, result: VerifyResult,
                            notices: seq<Notice>)
    requires SenderConcludes(step, c, files, result, notices)
    requires out == S.PinReply(c, ListPinRequired)
    ensures SenderConcludes(S.Step(step.task, out + step.out), c, files, result, Asked(1, tries, true) + notices)
  {
    hide SenderNotices;
    SenderAsked(c, tries, notices);
    var last := if result.Verified? then S.PinReply(c, ListOk(files)) else [];
    assert out + (SenderNotices(c, notices) + last) == out + SenderNotices(c, notices) + last;
  }

  lemma SenderTold(c: Config)
    ensures SenderNotices(c, [TooMany]) == S.PinReply(c, ListTooManyAttempts) && SenderNotices(c, []) == []
  {
    assert [TooMany][1..] == [];
  }

  lemma SenderAsked(c: Config, tries: nat, notices: seq<Notice>)
    ensures SenderNotices(c, Asked(1, tries, true) + notices)
         == S.PinReply(c, ListPinRequired) + SenderNotices(c, notices)
  {
    var all := Asked(1, tries, true) + notices;
    assert all[0] == Required && all[1..] == notices;
  }

  /** The sender's machine runs the challenge of `VerifyPin` with an initial notice. */
  lemma SenderRefinesVerifyPin(c: Config, files: seq<FileDto>, t: S.Task, config: PinConfig, msgs: seq<Message>)
    requires c.pin == Some(config)
    ensures var first := S.JudgePin(c, files, t, config, "", 0);
            var (step, rest) := SenderFed(c, files, first.task, msgs);
            var (result, rest', notices) := Verification(c.serde, config, msgs, true);
            rest == rest' && SenderConcludes(S.Step(step.task, first.out + step.out), c, files, result, notices)
  {
    JudgedIsVerification(c.serde, config, msgs, true);
    SenderJudges(c, files, t, config, "", 0, msgs);
  }
}

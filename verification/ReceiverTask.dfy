/** The receiving task as one sequential body, and its agreement with the machine of `Receiving`. */
module ReceiverTask {
  import opened Basics
  import opened Framing
  import opened Handshake
  import opened Model
  import opened PinCheck
  import opened PinRefinement
  import opened Protocol
  import opened FileLoop
  import R = Receiving
  import Token

  /** Everything the task will be given: messages up to the end of the channel, PINs the user enters, the selection,
      and what the application says about finished files. */
  datatype Inputs = Inputs(msgs: seq<Message>, entries: seq<string>, choice: Option<Option<map<string, string>>>,
                           verdicts: seq<FileResponse>)

  /** The machine's next step, if its inputs allow one. The end of the channel ends a chunked string. */
  function Advance(c: Config, t: R.Task, i: Inputs): Option<(R.Step, Inputs)> {
    match t.stage
    case AwaitStatus(buffer) =>
      if i.msgs == [] then Some((R.OnStatus(c, t, buffer), i))
      else Some((R.OnMessage(c, t, i.msgs[0]), i.(msgs := i.msgs[1..])))
    case AwaitVerdict(buffer) =>
      if i.msgs == [] then Some((R.OnVerdict(c, t, buffer), i))
      else Some((R.OnMessage(c, t, i.msgs[0]), i.(msgs := i.msgs[1..])))
    case EnterPin =>
      if i.entries == [] then None
      else Some((R.OnAction(c, t, R.Enter(i.entries[0])), i.(entries := i.entries[1..])))
    case Select =>
      if i.choice == None then None else Some((R.OnAction(c, t, R.Choose(i.choice.value)), i.(choice := None)))
    case AwaitUser(_) =>
      if t.loop.open.None? then None
      else if i.verdicts == [] then Some((R.OnAction(c, t, R.Verdict(None)), i))
      else Some((R.OnAction(c, t, R.Verdict(Some(i.verdicts[0]))), i.(verdicts := i.verdicts[1..])))
    case Ended(_) => None
    case _ =>
      if i.msgs == [] then None else Some((R.OnMessage(c, t, i.msgs[0]), i.(msgs := i.msgs[1..])))
  }

  function Size(i: Inputs): nat {
    |i.msgs| + |i.entries| + (if i.choice.Some? then 1 else 0)
  }

  function Urge(t: R.Task): nat {
    if t.stage.AwaitStatus? || t.stage.AwaitVerdict? || t.stage.AwaitUser? then 1 else 0
  }

  /** The machine run as far as its inputs go: where it ends up, what it sends, and what it leaves. */
  function Driven(c: Config, t: R.Task, i: Inputs): (R.Step, Inputs)
    decreases Size(i), Urge(t)
  {
    match Advance(c, t, i)
    case None => (R.Step(t, []), i)
    case Some((step, i')) =>
      var (last, rest) := Driven(c, step.task, i');
      (R.Step(last.task, step.out + last.out), rest)
  }

  /** What has been sent, and a machine that goes on from here, lead to the outcome `whole`. */
  ghost predicate OnTrack(c: Config, whole: (R.Step, Inputs), sent: seq<Message>, t: R.Task, i: Inputs) {
    var (step, rest) := Driven(c, t, i);
    whole == (R.Step(step.task, sent + step.out), rest)
  }

  lemma Track(c: Config, whole: (R.Step, Inputs), sent: seq<Message>, t: R.Task, i: Inputs)
    requires OnTrack(c, whole, sent, t, i)
    ensures match Advance(c, t, i)
            case None => whole == (R.Step(t, sent), i)
            case Some((step, i')) => OnTrack(c, whole, sent + step.out, step.task, i')
  {
    hide Advance;
    match Advance(c, t, i)
    case None => assert sent + [] == sent;
    case Some((step, i')) =>
      var (last, _) := Driven(c, step.task, i');
      assert sent + (step.out + last.out) == sent + step.out + last.out;
  }

  // ---- The parts of the task --------------------------------------------------------------------

  /** The challenge with our own PIN. */
  lemma {:induction false} TrackPins(c: Config, whole: (R.Step, Inputs), sent: seq<Message>, t: R.Task, i: Inputs)
    requires OnTrack(c, whole, sent, t, i)
    ensures var (step, rest) := ReceiverFed(c, t, i.msgs);
            OnTrack(c, whole, sent + step.out, step.task, i.(msgs := rest))
    decreases |i.msgs|
  {
    hide OnTrack;
    if t.stage.AwaitPin? && i.msgs != [] {
      Track(c, whole, sent, t, i);
      var step := R.OnPin(c, t, t.stage.tries, i.msgs[0]);
      TrackPins(c, whole, sent + step.out, step.task, i.(msgs := i.msgs[1..]));
      var later := ReceiverFed(c, step.task, i.msgs[1..]).0;
      assert sent + step.out + later.out == sent + (step.out + later.out);
    } else {
      assert sent + [] == sent;
    }
  }

  /** A chunked status, up to the next text message or the end of the channel. */
  lemma {:induction false} TrackStatus(c: Config, whole: (R.Step, Inputs), sent: seq<Message>, t: R.Task, i: Inputs,
                                       buffer: bytes)
    requires t.stage == R.AwaitStatus(buffer) && OnTrack(c, whole, sent, t, i)
    ensures var (payload, rest) := TakeString(i.msgs);
            OnTrack(c, whole, sent, R.OnStatus(c, t, buffer + payload).task, i.(msgs := rest))
    decreases |i.msgs|
  {
    hide OnTrack;
    Track(c, whole, sent, t, i);
    assert sent + [] == sent && buffer + [] == buffer;
    StatusSilent(c, t, buffer);
    if i.msgs != [] && !i.msgs[0].isString {
      var data := i.msgs[0].data;
      var next := t.(stage := R.AwaitStatus(buffer + data));
      TrackStatus(c, whole, sent, next, i.(msgs := i.msgs[1..]), buffer + data);
      var payload := TakeString(i.msgs[1..]).0;
      assert buffer + data + payload == buffer + (data + payload);
      StatusAlike(c, t, next, buffer + data + payload);
    }
  }

  lemma StatusSilent(c: Config, t: R.Task, buffer: bytes)
    ensures R.OnStatus(c, t, buffer).out == [] && R.OnVerdict(c, t, buffer).out == []
  {
  }

  /** What is made of a status does not depend on how much of it had arrived before. */
  lemma StatusAlike(c: Config, t: R.Task, t': R.Task, payload: bytes)
    requires t' == t.(stage := t'.stage)
    ensures R.OnStatus(c, t', payload) == R.OnStatus(c, t, payload)
    ensures R.OnVerdict(c, t', payload) == R.OnVerdict(c, t, payload)
  {
  }

  lemma {:induction false} TrackVerdict(c: Config, whole: (R.Step, Inputs), sent: seq<Message>, t: R.Task, i: Inputs,
                                        buffer: bytes)
    requires t.stage == R.AwaitVerdict(buffer) && OnTrack(c, whole, sent, t, i)
    ensures var (payload, rest) := TakeString(i.msgs);
            OnTrack(c, whole, sent, R.OnVerdict(c, t, buffer + payload).task, i.(msgs := rest))
    decreases |i.msgs|
  {
    hide OnTrack;
    Track(c, whole, sent, t, i);
    assert sent + [] == sent && buffer + [] == buffer;
    StatusSilent(c, t, buffer);
    if i.msgs != [] && !i.msgs[0].isString {
      var data := i.msgs[0].data;
      var next := t.(stage := R.AwaitVerdict(buffer + data));
      TrackVerdict(c, whole, sent, next, i.(msgs := i.msgs[1..]), buffer + data);
      var payload := TakeString(i.msgs[1..]).0;
      assert buffer + data + payload == buffer + (data + payload);
      StatusAlike(c, t, next, buffer + data + payload);
    }
  }

  /** How the receiver understands the reply to a PIN it submitted. */
  function ParseVerdict(c: Config): bytes -> ChallengeReply<seq<FileDto>> {
    (b: bytes) =>
      match c.serde.pinSending.decode(b)
      case None => Unreadable
      case Some(ListOk(files)) => Passed(files)
      case Some(ListPinRequired) => TryAgain
      case Some(ListTooManyAttempts) => GiveUp
  }

  /** Where the answer to the peer's challenge leaves the receiver. */
  function AfterPins(c: Config, t: R.Task, result: HandleResult<seq<FileDto>>): R.Task {
    match result
    case Entered(files) => R.Publish(c, t, files).task
    case NoMoreAttempts => t.End(TooManyAttempts).task
    case NoPin => t.(stage := R.EnterPin)
    case _ => t.End(ProtocolError).task
  }

  /** One PIN entered, and the reply to it. */
  lemma TrackEntry(c: Config, whole: (R.Step, Inputs), sent: seq<Message>, t: R.Task, i: Inputs)
    requires t.stage.EnterPin? && i.entries != [] && OnTrack(c, whole, sent, t, i)
    ensures var (payload, rest) := TakeString(i.msgs);
            OnTrack(c, whole, sent + PinTexts(c.serde, i.entries[..1]),
                    R.OnVerdict(c, t.(entered := t.entered + i.entries[..1]), payload).task,
                    i.(msgs := rest, entries := i.entries[1..]))
  {
    hide OnTrack, R.OnVerdict;
    Track(c, whole, sent, t, i);
    var text := Text(c.serde.pin.encode(PinMessage(i.entries[0])));
    assert i.entries[..1] == [i.entries[0]] && PinTexts(c.serde, i.entries[..1]) == [text];
    var t1 := t.(entered := t.entered + i.entries[..1], stage := R.AwaitVerdict([]));
    TrackVerdict(c, whole, sent + [text], t1, i.(entries := i.entries[1..]), []);
    var payload := TakeString(i.msgs).0;
    assert [] + payload == payload;
    StatusAlike(c, t.(entered := t.entered + i.entries[..1]), t1, payload);
  }

  lemma {:induction false} TrackEntries(c: Config, whole: (R.Step, Inputs), sent: seq<Message>, t: R.Task, i: Inputs)
    requires t.stage.EnterPin? && OnTrack(c, whole, sent, t, i)
    ensures var (result, n, rest) := Handled(i.entries, i.msgs, true, ParseVerdict(c));
            && n <= |i.entries|
            && OnTrack(c, whole, sent + PinTexts(c.serde, i.entries[..n]),
                       AfterPins(c, t.(entered := t.entered + i.entries[..n]), result),
                       i.(msgs := rest, entries := i.entries[n..]))
    decreases |i.entries|
  {
    hide OnTrack, PinTexts, TakeString;
    var (result, n, rest) := Handled(i.entries, i.msgs, true, ParseVerdict(c));
    HandledBound(i.entries, i.msgs, true, ParseVerdict(c));
    if i.entries == [] {
      PinTextsJoin(c.serde, sent, [], []);
      assert t.entered + [] == t.entered && i.entries[n..] == i.entries;
    } else {
      TrackEntry(c, whole, sent, t, i);
      var (payload, rest1) := TakeString(i.msgs);
      var (pin, entries) := (i.entries[..1], i.entries[1..]);
      var t1 := t.(entered := t.entered + pin);
      if ParseVerdict(c)(payload).TryAgain? {
        hide Handled;
        TrackEntries(c, whole, sent + PinTexts(c.serde, pin), t1, i.(msgs := rest1, entries := entries));
        var m := Handled(entries, rest1, true, ParseVerdict(c)).1;
        HandledAgain(c, i.entries, i.msgs);
        assert i.entries[..n] == pin + entries[..m] && entries[m..] == i.entries[n..];
        PinTextsJoin(c.serde, sent, pin, entries[..m]);
        assert t.entered + pin + entries[..m] == t.entered + (pin + entries[..m]);
      }
    }
  }

  lemma HandledAgain(c: Config, entries: seq<string>, msgs: seq<Message>)
    requires entries != [] && ParseVerdict(c)(TakeString(msgs).0).TryAgain?
    ensures var (result, m, rest) := Handled(entries[1..], TakeString(msgs).1, true, ParseVerdict(c));
            Handled(entries, msgs, true, ParseVerdict(c)) == (result, m + 1, rest)
  {
  }

  /** One message of the receive loop, together with the verdict it may have to wait for. */
  lemma TrackFile(c: Config, whole: (R.Step, Inputs), sent: seq<Message>, t: R.Task, i: Inputs, verdict: Option<FileResponse>)
    requires t.stage.Files? && t.setting.serde == c.serde && i.msgs != [] && OnTrack(c, whole, sent, t, i)
    requires verdict == if i.verdicts == [] then None else Some(i.verdicts[0])
    ensures var loop := Turn(t.setting, verdict, t.loop, i.msgs[0]);
            var closes := i.msgs[0].isString && t.loop.open.Some?;
            && |loop.responses| == |t.loop.responses| + (if closes then 1 else 0)
            && OnTrack(c, whole, sent + Responses(t.setting, loop.responses[|t.loop.responses|..]),
                       R.AfterTurn(t, loop).task,
                       i.(msgs := i.msgs[1..], verdicts := if closes then Remaining(i.verdicts, 1) else i.verdicts))
  {
    hide OnTrack, ReadHeader;
    var msg := i.msgs[0];
    var i1 := i.(msgs := i.msgs[1..]);
    Track(c, whole, sent, t, i);
    assert sent + [] == sent;
    var loop := Turn(t.setting, verdict, t.loop, msg);
    var added := loop.responses[|t.loop.responses|..];
    if msg.isString && t.loop.open.Some? {
      var t1 := t.(stage := R.AwaitUser(msg));
      assert OnTrack(c, whole, sent, t1, i1);
      Track(c, whole, sent, t1, i1);
      var answer := AnswerFor(t.loop.open.value, verdict);
      assert added == [answer] && Responses(t.setting, [answer]) == [Text(c.serde.response.encode(answer))];
      assert R.AfterTurn(t1, loop).task == R.AfterTurn(t, loop).task;
    } else {
      assert added == [] && Responses(t.setting, []) == [];
    }
  }

  /** The receive loop, after `k` messages. */
  lemma {:induction false} TrackFiles(c: Config, whole: (R.Step, Inputs), sent: seq<Message>, t: R.Task, i: Inputs, k: nat)
    requires t.stage.Files? && t.setting.serde == c.serde && t.loop == INITIAL && OnTrack(c, whole, sent, t, i)
    requires k <= |i.msgs| && (k > 0 ==> Received(t.setting, i.verdicts, i.msgs[..k - 1]).status == Running)
    ensures var loop := Received(t.setting, i.verdicts, i.msgs[..k]);
            OnTrack(c, whole, sent + Responses(t.setting, loop.responses), R.AfterTurn(t, loop).task,
                    i.(msgs := i.msgs[k..], verdicts := Remaining(i.verdicts, |loop.responses|)))
  {
    hide OnTrack, Turn, Received, Responses;
    if k == 0 {
      NothingReceived(t.setting, i.verdicts);
      assert i.msgs[..0] == [] && i.msgs[0..] == i.msgs && sent + [] == sent;
    } else {
      StillRunning(t.setting, i.verdicts, i.msgs, k);
      TrackFiles(c, whole, sent, t, i, k - 1);
      ReceivedStep(t.setting, i.verdicts, i.msgs, k - 1);
      var before := Received(t.setting, i.verdicts, i.msgs[..k - 1]);
      var verdict := NextVerdict(i.verdicts, before);
      var i1 := i.(msgs := i.msgs[k - 1..], verdicts := Remaining(i.verdicts, |before.responses|));
      assert i1.msgs[1..] == i.msgs[k..];
      TrackFile(c, whole, sent + Responses(t.setting, before.responses), R.AfterTurn(t, before).task, i1, verdict);
      TurnAnswers(t.setting, verdict, before, i.msgs[k - 1]);
      var loop := Turn(t.setting, verdict, before, i.msgs[k - 1]);
      ResponsesSplit(t.setting, before.responses, loop.responses);
      var (a, b) := (Responses(t.setting, before.responses), Responses(t.setting, loop.responses[|before.responses|..]));
      assert sent + a + b == sent + (a + b);
    }
  }

  lemma NothingReceived(s: Setting, verdicts: seq<FileResponse>)
    ensures Received(s, verdicts, []) == INITIAL && Responses(s, []) == []
  {
  }

  lemma ResponsesSplit(s: Setting, answers: seq<FileResponse>, more: seq<FileResponse>)
    requires answers <= more
    ensures Responses(s, more) == Responses(s, answers) + Responses(s, more[|answers|..])
  {
  }

  /** A loop that runs after `n` messages ran before them. */
  lemma StillRunning(s: Setting, verdicts: seq<FileResponse>, msgs: seq<Message>, k: nat)
    requires 0 < k <= |msgs| && Received(s, verdicts, msgs[..k - 1]).status == Running
    ensures k > 1 ==> Received(s, verdicts, msgs[..k - 2]).status == Running
  {
    if k > 1 {
      assert msgs[..k - 1][..k - 2] == msgs[..k - 2];
    }
  }

  lemma TurnAnswers(s: Setting, verdict: Option<FileResponse>, loop: Loop, msg: Message)
    ensures loop.responses <= Turn(s, verdict, loop, msg).responses
  {
  }

  // ---- The task itself --------------------------------------------------------------------------

  function Exit(stage: R.Stage): Option<Outcome> {
    match stage
    case Ended(outcome) => Some(outcome)
    case _ => None
  }

  /** What the task leaves behind: how it ended, if it did, and what the application got from it. */
  datatype Report = Report(outcome: Option<Outcome>, published: Option<seq<FileDto>>, delivered: seq<Delivery>,
                           errors: seq<FileError>)

  function ReportOf(t: R.Task): Report {
    Report(Exit(t.stage), if t.published then Some(t.setting.files) else None, t.loop.delivered, t.loop.errors)
  }

  function Ending(outcome: Option<Outcome>): Report {
    Report(outcome, None, [], [])
  }

  /** The receive loop with what comes before it: the user's choice and the tokens. */
  method TakeFiles(c: Config, files: seq<FileDto>, rx: Receiver<Message>, tx: Sender<Message>,
                   choice: Option<Option<map<string, string>>>, verdicts: Receiver<FileResponse>,
                   ghost whole: (R.Step, Inputs), ghost t: R.Task, ghost i: Inputs) returns (report: Report)
    requires tx.limit.None?
    requires t.stage.Select? && t.published && t.setting == Setting(c.serde, files, map[]) && t.loop == INITIAL
    requires i == Inputs(rx.items, i.entries, choice, verdicts.items) && OnTrack(c, whole, tx.sent, t, i)
    modifies rx, tx, verdicts
    ensures report == ReportOf(whole.0.task) && tx.sent == whole.0.out
    ensures rx.items == whole.1.msgs && verdicts.items == whole.1.verdicts && whole.1.entries == i.entries
  {
    hide OnTrack;
    Track(c, whole, tx.sent, t, i);
    if choice.None? {
      return Report(None, Some(files), [], []);
    }
    ghost var step := R.OnChoice(c, t, choice.value);
    ghost var t1, i1 := step.task, i.(choice := None);
    if choice.value.None? {
      SendStringInChunks(c.serde.fileList.encode(SelectionDeclined), tx);
      Track(c, whole, tx.sent, t1, i1);
      return Report(Some(Declined), Some(files), [], []);
    }
    var tokens := choice.value.value;
    SendStringInChunks(c.serde.fileList.encode(SelectionOk(tokens)), tx);
    var setting := Setting(c.serde, files, tokens);
    ghost var sent, msgs, answers := tx.sent, rx.items, verdicts.items;
    var status, delivered, errors;
    ghost var handled;
    status, delivered, errors, handled := ReceiveFiles(setting, rx, verdicts, tx);
    TrackFiles(c, whole, sent, t1, i1, handled);
    ghost var loop := Received(setting, answers, msgs[..handled]);
    Track(c, whole, tx.sent, R.AfterTurn(t1, loop).task, i1.(msgs := rx.items, verdicts := verdicts.items));
    var outcome := match status case Running => None case Done => Some(Finished) case Broken => Some(ProtocolError);
    return Report(outcome, Some(files), delivered, errors);
  }

  /** A task that has published nothing and received nothing. */
  predicate Untouched(t: R.Task) {
    !t.published && t.loop == INITIAL
  }

  /** Waits for the file list, and submits PINs for as long as the sender asks for them instead. */
  method LearnFiles(c: Config, rx: Receiver<Message>, tx: Sender<Message>, entries: Receiver<string>,
                    ghost whole: (R.Step, Inputs), ghost t: R.Task, ghost i: Inputs)
    returns (files: Option<seq<FileDto>>, outcome: Option<Outcome>, ghost t': R.Task, ghost i': Inputs)
    requires tx.limit.None?
    requires t.stage == R.AwaitStatus([]) && Untouched(t)
    requires i.msgs == rx.items && i.entries == entries.items && OnTrack(c, whole, tx.sent, t, i)
    modifies rx, tx, entries
    ensures i' == i.(msgs := rx.items, entries := entries.items)
    ensures files.Some? ==>
              && t'.stage.Select? && t'.published && t'.setting == Setting(c.serde, files.value, map[])
              && t'.loop == INITIAL && OnTrack(c, whole, tx.sent, t', i')
    ensures files.None? ==> whole == (R.Step(t', tx.sent), i') && ReportOf(t') == Ending(outcome)
  {
    hide OnTrack, TakeString;
    var payload := ReceiveStringFromChunks(rx);
    TrackStatus(c, whole, tx.sent, t, i, []);
    assert [] + payload == payload;
    t', i' := R.OnStatus(c, t, payload).task, i.(msgs := rx.items);
    Track(c, whole, tx.sent, t', i');
    match c.serde.pinSending.decode(payload)
    case None =>
      return None, Some(ProtocolError), t', i';
    case Some(ListTooManyAttempts) =>
      return None, Some(ProtocolError), t', i';
    case Some(ListOk(list)) =>
      return Some(list), None, t', i';
    case Some(ListPinRequired) =>
      hide Handled;
      TrackEntries(c, whole, tx.sent, t', i');
      NoPinLeft(i'.entries, i'.msgs, true, ParseVerdict(c));
      ghost var n := Handled(i'.entries, i'.msgs, true, ParseVerdict(c)).1;
      ghost var t1 := t'.(entered := t'.entered + i'.entries[..n]);
      var result := HandlePin(c.serde, entries, rx, tx, true, ParseVerdict(c));
      t', i' := AfterPins(c, t1, result), i'.(msgs := rx.items, entries := entries.items);
      Track(c, whole, tx.sent, t', i');
      match result {
        case Entered(list) => return Some(list), None, t', i';
        case NoMoreAttempts => return None, Some(TooManyAttempts), t', i';
        case NoPin =>
          return None, None, t', i';
        case _ => return None, Some(ProtocolError), t', i';
      }
  }

  lemma {:induction false} FedKeeps(c: Config, t: R.Task, msgs: seq<Message>)
    ensures var t' := ReceiverFed(c, t, msgs).0.task;
            t' == t.(stage := t'.stage)
    decreases |msgs|
  {
    if t.stage.AwaitPin? && msgs != [] {
      FedKeeps(c, R.OnPin(c, t, t.stage.tries, msgs[0]).task, msgs[1..]);
    }
  }

  /** The challenge with our own PIN, once the token with the request for it went out. */
  method Challenge(c: Config, config: PinConfig, rx: Receiver<Message>, tx: Sender<Message>,
                   ghost whole: (R.Step, Inputs), ghost t: R.Task, ghost i: Inputs)
    returns (passed: bool, outcome: Option<Outcome>, ghost t': R.Task, ghost i': Inputs)
    requires tx.limit.None? && c.pin == Some(config) && Untouched(t) && i.msgs == rx.items
    requires var first := R.JudgePin(c, t, config, "", 0);
             OnTrack(c, whole, tx.sent + first.out, first.task, i)
    modifies rx, tx
    ensures i' == i.(msgs := rx.items) && Untouched(t')
    ensures if passed then t'.stage == R.AwaitStatus([]) && OnTrack(c, whole, tx.sent, t', i')
            else whole == (R.Step(t', tx.sent), i') && Exit(t'.stage) == outcome
  {
    hide OnTrack, R.JudgePin, ReceiverFed, Verification, Sent, ReceiverNotices;
    ghost var first := R.JudgePin(c, t, config, "", 0);
    ghost var (step, rest) := ReceiverFed(c, first.task, i.msgs);
    ghost var sent := tx.sent;
    ReceiverRefinesVerifyPin(c, t, config, i.msgs);
    TrackPins(c, whole, sent + first.out, first.task, i);
    FedKeeps(c, first.task, i.msgs);
    JudgeKeeps(c, t, config);
    assert sent + first.out + step.out == sent + (first.out + step.out);
    ReceiverNoticesSent(c, Verification(c.serde, config, i.msgs, false).2);
    var result := VerifyPin(c.serde, config, rx, tx, false, ReceiverSends(c));
    t', i' := step.task, i.(msgs := rx.items);
    if result.Verified? {
      SendAll(R.PinReply(c, PinOk), tx);
      assert tx.sent == sent + (first.out + step.out);
      return true, None, t', i';
    }
    assert tx.sent == sent + (first.out + step.out);
    Track(c, whole, tx.sent, t', i');
    if result.Closed? {
      ClosedReadsAll(c.serde, config, i.msgs, false);
    }
    outcome := match result
      case TooManyRequests => Some(TooManyAttempts)
      case Malformed => Some(ProtocolError)
      case _ => None;
    return false, outcome, t', i';
  }

  lemma JudgeKeeps(c: Config, t: R.Task, config: PinConfig)
    ensures var t' := R.JudgePin(c, t, config, "", 0).task;
            t' == t.(stage := t'.stage)
  {
  }

  /** Everything up to the file list: nonces, tokens, and the challenge with our own PIN. */
  method Admit(c: Config, rx: Receiver<Message>, tx: Sender<Message>, ghost whole: (R.Step, Inputs), ghost i: Inputs)
    returns (admitted: bool, outcome: Option<Outcome>, ghost t': R.Task, ghost i': Inputs)
    requires tx.limit.None? && i.msgs == rx.items && OnTrack(c, whole, tx.sent, R.Begin(c).task, i)
    modifies rx, tx
    ensures i' == i.(msgs := rx.items) && Untouched(t')
    ensures if admitted then t'.stage == R.AwaitStatus([]) && OnTrack(c, whole, tx.sent, t', i')
            else whole == (R.Step(t', tx.sent), i') && Exit(t'.stage) == outcome
  {
    hide OnTrack, Trust, OwnToken, ReadNonce, R.JudgePin;
    ghost var t := R.Begin(c).task;
    Track(c, whole, tx.sent, t, i);
    var msg := rx.Recv();
    if msg.None? {
      return false, None, t, i;
    }
    var remote := ReadNonce(c.serde, msg.value);
    t', i' := R.OnNonce(c, t, msg.value).task, i.(msgs := rx.items);
    assert tx.sent + [] == tx.sent;
    if remote.None? {
      Track(c, whole, tx.sent, t', i');
      return false, Some(ProtocolError), t', i';
    }
    var ok := tx.Send(NonceText(c));
    var nonce := remote.value + c.nonce;
    admitted, outcome, t', i' := Authenticate(c, nonce, rx, tx, whole, t', i');
  }

  /** The token exchange for the given nonce. */
  method Authenticate(c: Config, nonce: bytes, rx: Receiver<Message>, tx: Sender<Message>,
                      ghost whole: (R.Step, Inputs), ghost t: R.Task, ghost i: Inputs)
    returns (admitted: bool, outcome: Option<Outcome>, ghost t': R.Task, ghost i': Inputs)
    requires tx.limit.None? && i.msgs == rx.items && Untouched(t)
    requires t.stage == R.AwaitToken(nonce) && OnTrack(c, whole, tx.sent, t, i)
    modifies rx, tx
    ensures i' == i.(msgs := rx.items) && Untouched(t')
    ensures if admitted then t'.stage == R.AwaitStatus([]) && OnTrack(c, whole, tx.sent, t', i')
            else whole == (R.Step(t', tx.sent), i') && Exit(t'.stage) == outcome
  {
    hide OnTrack, Trust, OwnToken, R.JudgePin;
    Track(c, whole, tx.sent, t, i);
    var msg := rx.Recv();
    if msg.None? {
      return false, None, t, i;
    }
    ghost var step := R.OnToken(c, t, nonce, msg.value);
    t', i' := step.task, i.(msgs := rx.items);
    assert tx.sent + [] == tx.sent;
    var request := if msg.value.isString then c.serde.tokenRequest.decode(msg.value.data) else None;
    if request.None? {
      Track(c, whole, tx.sent, t', i');
      return false, Some(ProtocolError), t', i';
    }
    match Trust(c, request.value.token, nonce)
    case Rejected =>
      var ok := tx.Send(R.TokenText(c, TokenInvalidSignature));
      Track(c, whole, tx.sent, t', i');
      return false, Some(BadSignature), t', i';
    case Panicked =>
      Track(c, whole, tx.sent, t', i');
      return false, Some(Crashed), t', i';
    case Accepted =>
      var token := OwnToken(c, nonce);
      var ok := tx.Send(R.TokenText(c, if c.pin.Some? then TokenPinRequired(token) else TokenOk(token)));
      if c.pin.None? {
        return true, None, t', i';
      }
      ghost var first := R.JudgePin(c, t, c.pin.value, "", 0);
      ghost var sent := old(tx.sent);
      assert sent + ([R.TokenText(c, TokenPinRequired(token))] + first.out) == tx.sent + first.out;
      admitted, outcome, t', i' := Challenge(c, c.pin.value, rx, tx, whole, t, i');
  }

  /** The receiving task, start to end. What it sends, what it leaves unread, how it ends and what the application gets
      are those of the machine driven by the same inputs. */
  method AcceptOffer(c: Config, rx: Receiver<Message>, tx: Sender<Message>, entries: Receiver<string>,
                     choice: Option<Option<map<string, string>>>, verdicts: Receiver<FileResponse>)
    returns (report: Report)
    requires tx.limit.None?
    modifies rx, tx, entries, verdicts
    ensures var inputs := Inputs(old(rx.items), old(entries.items), choice, old(verdicts.items));
            var (step, rest) := Driven(c, R.Begin(c).task, inputs);
            && report == ReportOf(step.task) && tx.sent == old(tx.sent) + step.out
            && rx.items == rest.msgs && entries.items == rest.entries && verdicts.items == rest.verdicts
  {
    ghost var i := Inputs(rx.items, entries.items, choice, verdicts.items);
    ghost var t := R.Begin(c).task;
    ghost var (driven, left) := Driven(c, t, i);
    ghost var whole := (R.Step(driven.task, tx.sent + driven.out), left);
    hide Driven;
    var admitted, outcome;
    ghost var t1, i1;
    admitted, outcome, t1, i1 := Admit(c, rx, tx, whole, i);
    if !admitted {
      return Ending(outcome);
    }
    var files;
    files, outcome, t1, i1 := LearnFiles(c, rx, tx, entries, whole, t1, i1);
    if files.None? {
      return Ending(outcome);
    }
    report := TakeFiles(c, files.value, rx, tx, choice, verdicts, whole, t1, i1);
  }
}

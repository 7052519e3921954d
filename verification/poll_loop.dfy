/** The `while True` loop of main (homework.py): one iteration is `Cycle`, a run
    of iterations over a finite sequence of API answers is `Run`, and `RunBot`
    is main itself, written as the imperative loop it is. The HTTP request, the
    Telegram client, the clock and the sleep between iterations are outside the
    model: each iteration receives the API's answer and the fate of the message
    it sends as an input. */
module PollLoop {
  import opened Wrappers
  import opened JsonValues
  import opened Exceptions
  import opened Homework

  const StartupMessage := "Бот запущен и начал мониторинг"

  /** One message handed to send_message, and whether the chat received it.
      send_message swallows every delivery error, so nothing else follows from it. */
  datatype Notification = Notification(text: string, delivered: bool)

  /** What the outside world does during one iteration: the API's answer to the
      request and, should the iteration send a message, whether it is delivered. */
  datatype CycleInput = CycleInput(fetch: FetchOutcome, delivered: bool)

  /** The loop's local state: the `from_date` cursor (whatever JSON value the
      last `current_date` held) and the text of the last error sent, if any. */
  datatype PollState = PollState(timestamp: Json, lastErrorMessage: Option<string>)

  /** The state on entering the loop: a cursor thirty days before `now` (the
      truncated Unix time) and no error sent yet. */
  function InitialState(now: int): PollState {
    PollState(JInt(now - LastMonth), None)
  }

  /** The outcome of an iteration's `try` block when nothing is raised: the
      response's `current_date`, if it has one, and the status message sent,
      if the homework list was non-empty. */
  datatype Progress = Progress(currentDate: Option<Json>, message: Option<string>)

  /** The answers this model covers: when a 200 response carries a non-empty
      homework list, its first element is a record (a JSON object with string
      "status" and "homework_name" members, when present). */
  predicate FirstRecordModelled(fetch: FetchOutcome) {
    (fetch.Responded? && fetch.statusCode == HttpOk && HasHomeworkList(fetch.body) && |fetch.body.fields["homeworks"].items| > 0) ==>
      IsRecord(fetch.body.fields["homeworks"].items[0])
  }

  /** The `current_date` member of a response object, if any. */
  function CurrentDate(fields: map<string, Json>): Option<Json> {
    if "current_date" in fields then Some(fields["current_date"]) else None
  }

  /** The `try` block of one iteration: fetch, validate, format the first record. */
  function TryCycle(fetch: FetchOutcome): (r: Result<Progress, Error>)
    requires FirstRecordModelled(fetch)
    ensures GetApiAnswer(fetch).Failure? ==> r == Failure(GetApiAnswer(fetch).error)
    ensures GetApiAnswer(fetch).Success? && CheckResponse(fetch.body).Failure? ==>
              r == Failure(CheckResponse(fetch.body).error)
    ensures GetApiAnswer(fetch).Success? && CheckResponse(fetch.body).Success? ==>
              var homeworks := fetch.body.fields["homeworks"].items;
              && (|homeworks| > 0 && ParseStatus(homeworks[0]).Failure? ==>
                    r == Failure(ParseStatus(homeworks[0]).error))
              && (|homeworks| > 0 && ParseStatus(homeworks[0]).Success? ==>
                    r == Success(Progress(CurrentDate(fetch.body.fields), Some(ParseStatus(homeworks[0]).value))))
              && (|homeworks| == 0 ==> r == Success(Progress(CurrentDate(fetch.body.fields), None)))
  {
    var response :- GetApiAnswer(fetch);
    var homeworks :- CheckResponse(response);
    if |homeworks| == 0 then
      Success(Progress(CurrentDate(response.fields), None))
    else
      var message :- ParseStatus(homeworks[0]);
      Success(Progress(CurrentDate(response.fields), Some(message)))
  }

  /** One iteration of the loop: the new state and the messages sent. */
  function Cycle(s: PollState, input: CycleInput): (r: (PollState, seq<Notification>))
    requires FirstRecordModelled(input.fetch)
    ensures |r.1| <= 1
    ensures r.0.timestamp != s.timestamp ==> TryCycle(input.fetch).Success?
    ensures r.0.lastErrorMessage != s.lastErrorMessage ==>
              r.0.lastErrorMessage.Some? && r.1 == [Notification(r.0.lastErrorMessage.value, input.delivered)]
  {
    match TryCycle(input.fetch)
    case Success(progress) =>
      var sent := if progress.message.Some? then [Notification(progress.message.value, input.delivered)] else [];
      (PollState(progress.currentDate.GetOr(s.timestamp), s.lastErrorMessage), sent)
    case Failure(error) =>
      if Some(error.text) != s.lastErrorMessage then
        (PollState(s.timestamp, Some(error.text)), [Notification(error.text, input.delivered)])
      else
        (s, [])
  }

  /** An iteration that raises nothing sends the status message of the first
      homework, or nothing for an empty list, moves the cursor to `current_date`
      when the response has one (whether or not the message was delivered), and
      keeps the last error text. */
  lemma CycleWithoutError(s: PollState, input: CycleInput)
    requires FirstRecordModelled(input.fetch)
    requires GetApiAnswer(input.fetch).Success?
    requires CheckResponse(input.fetch.body).Success?
    requires var homeworks := input.fetch.body.fields["homeworks"].items;
             |homeworks| > 0 ==> ParseStatus(homeworks[0]).Success?
    ensures var homeworks := input.fetch.body.fields["homeworks"].items;
            var fields := input.fetch.body.fields;
            && Cycle(s, input).0.timestamp == (if "current_date" in fields then fields["current_date"] else s.timestamp)
            && Cycle(s, input).0.lastErrorMessage == s.lastErrorMessage
            && Cycle(s, input).1 == (if |homeworks| == 0 then []
                                     else [Notification(ParseStatus(homeworks[0]).value, input.delivered)])
  {
  }

  /** An iteration whose fetch, validation or formatting raises keeps the
      cursor, sends the error text exactly when it differs from the last one
      sent, and remembers it as the last one sent. */
  lemma CycleWithError(s: PollState, input: CycleInput)
    requires FirstRecordModelled(input.fetch)
    requires TryCycle(input.fetch).Failure?
    ensures var text := TryCycle(input.fetch).error.text;
            && Cycle(s, input).0 == PollState(s.timestamp, Some(text))
            && Cycle(s, input).1 == (if s.lastErrorMessage != Some(text) then [Notification(text, input.delivered)] else [])
  {
  }

  /** Only the first homework of the list matters: the rest of the list, even
      records the model does not cover, changes nothing. */
  lemma OnlyFirstHomework(fields: map<string, Json>, first: Json, rest: seq<Json>)
    requires IsRecord(first)
    ensures var whole := Responded(HttpOk, JObject(fields["homeworks" := JArray([first] + rest)]));
            var single := Responded(HttpOk, JObject(fields["homeworks" := JArray([first])]));
            FirstRecordModelled(whole) && FirstRecordModelled(single) &&
            TryCycle(whole) == TryCycle(single)
  {
  }

  // ------------------------------------------------------------ many iterations

  predicate AllModelled(inputs: seq<CycleInput>) {
    forall i :: 0 <= i < |inputs| ==> FirstRecordModelled(inputs[i].fetch)
  }

  /** Iterations over `inputs` in turn: the final state and every message sent. */
  function Run(s: PollState, inputs: seq<CycleInput>): (r: (PollState, seq<Notification>))
    requires AllModelled(inputs)
    ensures |r.1| <= |inputs|
    decreases |inputs|
  {
    if inputs == [] then (s, [])
    else
      var (next, sent) := Cycle(s, inputs[0]);
      var (last, more) := Run(next, inputs[1..]);
      (last, sent + more)
  }

  /** Running one more iteration extends a run by that iteration. */
  lemma {:induction false} RunAppend(s: PollState, inputs: seq<CycleInput>, input: CycleInput)
    requires AllModelled(inputs) && FirstRecordModelled(input.fetch)
    ensures AllModelled(inputs + [input])
    ensures var (mid, sent) := Run(s, inputs);
            var (last, more) := Cycle(mid, input);
            Run(s, inputs + [input]) == (last, sent + more)
    decreases |inputs|
  {
    if inputs != [] {
      var first := Cycle(s, inputs[0]);
      assert (inputs + [input])[0] == inputs[0];
      assert (inputs + [input])[1..] == inputs[1..] + [input];
      RunAppend(first.0, inputs[1..], input);
      var rest := Run(first.0, inputs[1..]);
      var step := Cycle(rest.0, input);
      assert Run(s, inputs) == (rest.0, first.1 + rest.1);
      assert Run(s, inputs + [input]) == (step.0, first.1 + (rest.1 + step.1));
      assert first.1 + (rest.1 + step.1) == (first.1 + rest.1) + step.1;
    } else {
      assert inputs + [input] == [input];
      assert [input][1..] == [];
      assert Run(s, [input]) == (Cycle(s, input).0, Cycle(s, input).1 + []);
      assert Cycle(s, input).1 + [] == [] + Cycle(s, input).1;
    }
  }

  /** The text of the last error raised among `inputs`, or `prior` if none was. */
  function LastErrorRaised(inputs: seq<CycleInput>, prior: Option<string>): Option<string>
    requires AllModelled(inputs)
  {
    if inputs == [] then prior
    else match TryCycle(inputs[|inputs| - 1].fetch)
      case Failure(error) => Some(error.text)
      case Success(_) => LastErrorRaised(inputs[..|inputs| - 1], prior)
  }

  /** After any run, the last error text is that of the last iteration that
      raised, whether or not its message was sent or delivered; iterations that
      raise nothing leave it alone. */
  lemma {:induction false} LastErrorMessageIsLastRaised(s: PollState, inputs: seq<CycleInput>)
    requires AllModelled(inputs)
    ensures Run(s, inputs).0.lastErrorMessage == LastErrorRaised(inputs, s.lastErrorMessage)
  {
    if inputs != [] {
      var init, last := inputs[..|inputs| - 1], inputs[|inputs| - 1];
      assert inputs == init + [last];
      RunAppend(s, init, last);
      LastErrorMessageIsLastRaised(s, init);
    }
  }

  /** The cursor after `inputs`: the `current_date` of the last iteration that
      raised nothing and whose response had one, or `prior`. */
  function LastCursor(inputs: seq<CycleInput>, prior: Json): Json
    requires AllModelled(inputs)
  {
    if inputs == [] then prior
    else match TryCycle(inputs[|inputs| - 1].fetch)
      case Success(Progress(Some(date), _)) => date
      case _ => LastCursor(inputs[..|inputs| - 1], prior)
  }

  /** After any run, the cursor is the last `current_date` received in an
      iteration that raised nothing, whether its list was empty or not and
      whether its message was delivered or not. */
  lemma {:induction false} TimestampIsLastCurrentDate(s: PollState, inputs: seq<CycleInput>)
    requires AllModelled(inputs)
    ensures Run(s, inputs).0.timestamp == LastCursor(inputs, s.timestamp)
  {
    if inputs != [] {
      var init, last := inputs[..|inputs| - 1], inputs[|inputs| - 1];
      assert inputs == init + [last];
      RunAppend(s, init, last);
      TimestampIsLastCurrentDate(s, init);
    }
  }

  /** The texts of the messages sent, in order. */
  function Texts(sent: seq<Notification>): (r: seq<string>)
    ensures |r| == |sent|
    ensures forall i :: 0 <= i < |sent| ==> r[i] == sent[i].text
  {
    seq(|sent|, i requires 0 <= i < |sent| => sent[i].text)
  }

  /** One iteration: whether its message is delivered changes neither the
      state nor the text sent. */
  lemma CycleIgnoresDelivery(s: PollState, x: CycleInput, y: CycleInput)
    requires FirstRecordModelled(x.fetch) && x.fetch == y.fetch
    ensures Cycle(s, x).0 == Cycle(s, y).0
    ensures Texts(Cycle(s, x).1) == Texts(Cycle(s, y).1)
  {
  }

  /** A run of at least one iteration is its first iteration followed by the rest. */
  lemma RunFirst(s: PollState, inputs: seq<CycleInput>)
    requires AllModelled(inputs) && inputs != []
    ensures AllModelled(inputs[1..])
    ensures var (next, sent) := Cycle(s, inputs[0]);
            Run(s, inputs) == (Run(next, inputs[1..]).0, sent + Run(next, inputs[1..]).1)
  {
  }

  lemma TextsAppend(a: seq<Notification>, b: seq<Notification>)
    ensures Texts(a + b) == Texts(a) + Texts(b)
  {
  }

  /** Whether messages are delivered changes nothing in the state: the same
      answers give the same cursor, the same last error and the same texts sent. */
  lemma {:induction false} RunIgnoresDelivery(s: PollState, xs: seq<CycleInput>, ys: seq<CycleInput>)
    requires AllModelled(xs) && |xs| == |ys|
    requires forall i :: 0 <= i < |xs| ==> xs[i].fetch == ys[i].fetch
    ensures AllModelled(ys)
    ensures Run(s, xs).0 == Run(s, ys).0
    ensures Texts(Run(s, xs).1) == Texts(Run(s, ys).1)
    decreases |xs|
  {
    forall i | 0 <= i < |ys| ensures FirstRecordModelled(ys[i].fetch) {
      assert xs[i].fetch == ys[i].fetch;
    }
    if xs != [] {
      var cx, cy := Cycle(s, xs[0]), Cycle(s, ys[0]);
      CycleIgnoresDelivery(s, xs[0], ys[0]);
      RunFirst(s, xs);
      RunFirst(s, ys);
      RunIgnoresDelivery(cx.0, xs[1..], ys[1..]);
      TextsAppend(cx.1, Run(cx.0, xs[1..]).1);
      TextsAppend(cy.1, Run(cx.0, ys[1..]).1);
    }
  }

  /** The same error raised over and over is sent once at most: exactly once
      when it differs from the last error sent before, and never again after. */
  lemma {:induction false} RepeatedErrorSentOnce(s: PollState, inputs: seq<CycleInput>, text: string)
    requires AllModelled(inputs) && |inputs| > 0
    requires forall i :: 0 <= i < |inputs| ==>
               TryCycle(inputs[i].fetch).Failure? && TryCycle(inputs[i].fetch).error.text == text
    ensures Run(s, inputs).0 == PollState(s.timestamp, Some(text))
    ensures Run(s, inputs).1 == if s.lastErrorMessage == Some(text) then []
                                else [Notification(text, inputs[0].delivered)]
    decreases |inputs|
  {
    var next := Cycle(s, inputs[0]).0;
    assert TryCycle(inputs[0].fetch).Failure?;
    if |inputs| > 1 {
      RepeatedErrorSentOnce(next, inputs[1..], text);
    }
  }

  /** From the start of the loop, two iterations failing with the same request
      error send that error once. */
  lemma TwoIdenticalRequestErrors(now: int, cause: string, d1: bool, d2: bool)
    ensures var inputs := [CycleInput(RequestFailed(cause), d1), CycleInput(RequestFailed(cause), d2)];
            AllModelled(inputs) &&
            Run(InitialState(now), inputs).1 == [Notification(RequestFailedPrefix + cause, d1)]
  {
  }

  /** A response listing one reviewing homework "HW1" with `current_date`
      1000, received with the cursor at 500, sends the reviewing message for
      "HW1" and moves the cursor to 1000. */
  lemma ReviewingScenario(lastError: Option<string>, delivered: bool)
    ensures var record := JObject(map["status" := JString("reviewing"), "homework_name" := JString("HW1")]);
            var body := JObject(map["homeworks" := JArray([record]), "current_date" := JInt(1000)]);
            var input := CycleInput(Responded(200, body), delivered);
            FirstRecordModelled(input.fetch) &&
            Cycle(PollState(JInt(500), lastError), input) ==
              (PollState(JInt(1000), lastError),
               [Notification(StatusMessage("HW1", HomeworkVerdicts["reviewing"]), delivered)])
  {
  }

  /** A response whose homework list is empty sends nothing and, lacking a
      `current_date`, leaves the whole state as it was. */
  lemma EmptyListScenario(s: PollState, delivered: bool)
    ensures var input := CycleInput(Responded(200, JObject(map["homeworks" := JArray([])])), delivered);
            FirstRecordModelled(input.fetch) && Cycle(s, input) == (s, [])
  {
  }

  // ------------------------------------------------------------------------ main

  /** One pass of the loop body: the `try` block (fetch, validate, send the
      status message of the first homework, move the cursor) and the `except`
      block (send the error text unless it was the last one sent). */
  method PollOnce(timestamp: Json, lastErrorMessage: Option<string>, input: CycleInput)
    returns (timestamp': Json, lastErrorMessage': Option<string>, sent: seq<Notification>)
    requires FirstRecordModelled(input.fetch)
    ensures (PollState(timestamp', lastErrorMessage'), sent) == Cycle(PollState(timestamp, lastErrorMessage), input)
  {
    timestamp', lastErrorMessage', sent := timestamp, lastErrorMessage, [];
    // try:
    var raised: Option<Error> := None;
    var answer := GetApiAnswer(input.fetch);
    if answer.Failure? {
      raised := Some(answer.error);
    } else {
      var response := answer.value;
      var checked := CheckResponse(response);
      if checked.Failure? {
        raised := Some(checked.error);
      } else {
        var homeworks := checked.value;
        if |homeworks| > 0 {
          var parsed := ParseStatus(homeworks[0]);
          if parsed.Failure? {
            raised := Some(parsed.error);
          } else {
            sent := [Notification(parsed.value, input.delivered)];
          }
        }
        if raised.None? && "current_date" in response.fields {
          timestamp' := response.fields["current_date"];
        }
      }
    }
    // except:
    if raised.Some? {
      var errorMessage := raised.value.text;
      if Some(errorMessage) != lastErrorMessage {
        sent := [Notification(errorMessage, input.delivered)];
        lastErrorMessage' := Some(errorMessage);
      }
    }
  }

  /** How main ends within the model: the process exits with a code, or it is
      still polling when the given answers run out, in the state shown. */
  datatype BotRun = Exited(code: int) | Polling(state: PollState)

  /** main: check the tokens (exit with code 1 when one is missing), announce
      the start, then loop over the API's answers, sending status messages and
      deduplicated error texts. */
  method RunBot(practicumToken: Option<string>, telegramToken: Option<string>, telegramChatId: Option<string>,
                now: int, startupDelivered: bool, inputs: seq<CycleInput>)
    returns (outcome: BotRun, sent: seq<Notification>)
    requires AllModelled(inputs)
    ensures outcome.Exited? <==> CheckTokens(practicumToken, telegramToken, telegramChatId).Failure?
    ensures outcome.Exited? ==> outcome.code == 1 && sent == []
    ensures outcome.Polling? ==>
              && outcome.state == Run(InitialState(now), inputs).0
              && sent == [Notification(StartupMessage, startupDelivered)] + Run(InitialState(now), inputs).1
  {
    if CheckTokens(practicumToken, telegramToken, telegramChatId).Failure? {
      return Exited(1), [];
    }
    var timestamp := JInt(now - LastMonth);
    sent := [Notification(StartupMessage, startupDelivered)];
    var lastErrorMessage: Option<string> := None;
    var i := 0;
    while i < |inputs|
      invariant 0 <= i <= |inputs|
      invariant AllModelled(inputs[..i])
      invariant Run(InitialState(now), inputs[..i]).0 == PollState(timestamp, lastErrorMessage)
      invariant sent == [Notification(StartupMessage, startupDelivered)] + Run(InitialState(now), inputs[..i]).1
    {
      var input := inputs[i];
      var more;
      timestamp, lastErrorMessage, more := PollOnce(timestamp, lastErrorMessage, input);
      sent := sent + more;
      assert inputs[..i + 1] == inputs[..i] + [input];
      RunAppend(InitialState(now), inputs[..i], input);
      i := i + 1;
    }
    assert inputs[..i] == inputs;
    outcome := Polling(PollState(timestamp, lastErrorMessage));
  }
}

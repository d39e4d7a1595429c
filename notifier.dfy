/**
 * The bot's driver: one polling cycle as a specification function, the bot
 * as an object whose cursor, chat history and liveness each cycle updates,
 * and a driver that runs a finite prefix of the endless polling loop.
 *
 * The outside world enters as data: what the HTTP request and JSON decoding
 * produced, the wall-clock time, and whether each chat send went through or
 * raised.
 */
module Notifier {
  import opened Wrappers
  import opened Formatter

  /** The decoded JSON object of a poll, with the two keys the loop reads. */
  datatype Statuses = Statuses(homeworks: Option<seq<Homework>>, currentDate: Option<int>)

  /**
   * A decoded JSON body: an object, or any other JSON value (an array, a
   * string, a number, `null`), on which `.get` raises an `AttributeError`
   * whose text is `getError`.
   */
  datatype Body = Object(statuses: Statuses) | NonObject(getError: string)

  /** The outcome of the HTTP request and its JSON decoding. */
  datatype Fetch = Fetched(body: Body) | RequestFailed(error: string)

  /** The outcome of one call to the chat client. */
  datatype Delivery = Delivered | Raised(error: string)

  /** What the outside world does during one cycle. */
  datatype CycleInput = CycleInput(
    fetch: Fetch,     // the poll's HTTP outcome
    now: int,         // the wall-clock time, in whole seconds, when the cursor is advanced
    send: Delivery,   // the notification send, if one is attempted
    report: Delivery) // the error-report send, if one is attempted

  /** What one cycle does: messages that reach the chat, the next cursor, the pause after it. */
  datatype CycleResult = CycleResult(
    sent: seq<string>,
    cursor: int,
    pause: nat,        // seconds slept before the next cycle
    crashed: bool)     // an exception escaped the loop and ended the process

  /** The seconds slept after a normal cycle and after a reported error. */
  const PollInterval: nat := 30
  const ErrorInterval: nat := 60

  /** The empty JSON object. */
  const EmptyStatuses := Statuses(None, None)

  /**
   * The poller absorbs any request or decoding failure and yields the empty
   * object instead; a decoded body, object or not, is handed on as it is.
   */
  function GetHomeworkStatuses(fetch: Fetch): (body: Body)
    ensures fetch.RequestFailed? ==> body.Object? && body.statuses.homeworks.None? && body.statuses.currentDate.None?
    ensures fetch.Fetched? ==> body == fetch.body
  {
    match fetch
    case Fetched(body) => body
    case RequestFailed(_) => Object(EmptyStatuses)
  }

  /** The homework the loop notifies about: the first one, when the list is present and non-empty. */
  function FirstHomework(homeworks: Option<seq<Homework>>): (first: Option<Homework>)
    ensures first.Some? <==> homeworks.Some? && |homeworks.value| > 0
    ensures first.Some? ==> first.value == homeworks.value[0]
  {
    if homeworks.Some? && |homeworks.value| > 0 then Some(homeworks.value[0]) else None
  }

  /** The text reported to the chat when the cycle raised. */
  function ErrorReport(error: string): (report: string) {
    "Бот столкнулся с ошибкой: " + error
  }

  /**
   * The `except` handler: the cursor is left alone and the error is reported
   * to the chat; if that report raises too, the exception leaves the loop.
   */
  function Recover(timestamp: int, error: string, report: Delivery): (r: CycleResult) {
    match report
    case Delivered => CycleResult([ErrorReport(error)], timestamp, ErrorInterval, false)
    case Raised(_) => CycleResult([], timestamp, 0, true)
  }

  /**
   * One pass of the loop body. A body that is not an object raises at the
   * first `.get`. Otherwise the first homework, if any, is formatted and
   * sent; if that send raises, the handler takes over. When nothing raised,
   * the cursor moves to the poll's `current_date`, or to the wall-clock time
   * when the key is absent.
   */
  function Cycle(timestamp: int, input: CycleInput): (r: CycleResult) {
    match GetHomeworkStatuses(input.fetch)
    case NonObject(getError) => Recover(timestamp, getError, input.report)
    case Object(statuses) =>
      var first := FirstHomework(statuses.homeworks);
      if first.Some? && input.send.Raised? then
        Recover(timestamp, input.send.error, input.report)
      else
        var sent := if first.Some? then [ParseHomeworkStatus(first.value)] else [];
        CycleResult(sent, statuses.currentDate.GetOr(input.now), PollInterval, false)
  }

  /** Nothing raises inside the loop's `try`: the body is an object, and no send is attempted or it goes through. */
  predicate RaisesNothing(input: CycleInput) {
    match GetHomeworkStatuses(input.fetch)
    case NonObject(_) => false
    case Object(statuses) => FirstHomework(statuses.homeworks).None? || input.send.Delivered?
  }

  // ---------------------------------------------------------------------
  // Properties of one cycle
  // ---------------------------------------------------------------------

  /**
   * Something reaches the chat only when the poll returned a non-empty list
   * of homeworks (the notification or, if it raised, the error report), or
   * when the body was not an object and the error report went through.
   */
  lemma SentOnlyForNonEmptyList(timestamp: int, input: CycleInput)
    ensures var body := GetHomeworkStatuses(input.fetch);
      |Cycle(timestamp, input).sent| > 0
      <==> if body.NonObject? then input.report.Delivered?
           else body.statuses.homeworks.Some? && |body.statuses.homeworks.value| > 0
                && (input.send.Delivered? || input.report.Delivered?)
  {
  }

  /** When the send goes through, the only message is the formatting of the first homework. */
  lemma OnlyFirstHomeworkIsSent(timestamp: int, input: CycleInput, first: Homework, rest: seq<Homework>)
    requires GetHomeworkStatuses(input.fetch).Object?
    requires GetHomeworkStatuses(input.fetch).statuses.homeworks == Some([first] + rest)
    requires input.send.Delivered?
    ensures Cycle(timestamp, input).sent == [ParseHomeworkStatus(first)]
    ensures !Cycle(timestamp, input).crashed
  {
  }

  /** Homeworks after the first never affect a cycle. */
  lemma LaterHomeworksIgnored(timestamp: int, input: CycleInput, first: Homework,
                              rest1: seq<Homework>, rest2: seq<Homework>, currentDate: Option<int>)
    requires input.fetch == Fetched(Object(Statuses(Some([first] + rest1), currentDate)))
    ensures Cycle(timestamp, input)
            == Cycle(timestamp, input.(fetch := Fetched(Object(Statuses(Some([first] + rest2), currentDate)))))
  {
  }

  /**
   * When nothing raises, the cursor becomes `current_date`, or the wall-clock
   * time without it, whether or not a message was sent.
   */
  lemma CursorAfterQuietCycle(timestamp: int, input: CycleInput)
    requires RaisesNothing(input)
    ensures var statuses := GetHomeworkStatuses(input.fetch).statuses;
      var r := Cycle(timestamp, input);
      !r.crashed && r.pause == 30
      && (statuses.currentDate.Some? ==> r.cursor == statuses.currentDate.value)
      && (statuses.currentDate.None? ==> r.cursor == input.now)
  {
  }

  /** A failed poll sends nothing and moves the cursor to the wall-clock time. */
  lemma FailedPollCycle(timestamp: int, input: CycleInput)
    requires input.fetch.RequestFailed?
    ensures Cycle(timestamp, input) == CycleResult([], input.now, 30, false)
  {
  }

  /**
   * When the notification send raises, the cursor stays where it was and the
   * one message produced is the error report; if that report cannot be sent
   * either, the loop ends.
   */
  lemma SendFailureCycle(timestamp: int, input: CycleInput, error: string)
    requires GetHomeworkStatuses(input.fetch).Object?
    requires FirstHomework(GetHomeworkStatuses(input.fetch).statuses.homeworks).Some?
    requires input.send == Raised(error)
    ensures input.report.Delivered? ==>
      Cycle(timestamp, input) == CycleResult(["Бот столкнулся с ошибкой: " + error], timestamp, 60, false)
    ensures input.report.Raised? ==>
      Cycle(timestamp, input) == CycleResult([], timestamp, 0, true)
  {
  }

  /**
   * A body that is not an object raises at its first `.get`, with no homework
   * in sight: the cursor stays where it was and the error is reported, or, if
   * that report raises, the loop ends.
   */
  lemma NonObjectBodyCycle(timestamp: int, input: CycleInput, getError: string)
    requires input.fetch == Fetched(NonObject(getError))
    ensures input.report.Delivered? ==>
      Cycle(timestamp, input) == CycleResult(["Бот столкнулся с ошибкой: " + getError], timestamp, 60, false)
    ensures input.report.Raised? ==>
      Cycle(timestamp, input) == CycleResult([], timestamp, 0, true)
  {
  }

  // ---------------------------------------------------------------------
  // A run of several cycles
  // ---------------------------------------------------------------------

  /** The bot's observable state: cursor, messages in the chat, whether it still runs, seconds slept. */
  datatype BotState = BotState(timestamp: int, chat: seq<string>, alive: bool, slept: nat)

  /** The state after one cycle; a bot whose loop has ended does nothing more. */
  function Next(s: BotState, input: CycleInput): (t: BotState) {
    if !s.alive then s
    else
      var r := Cycle(s.timestamp, input);
      BotState(r.cursor, s.chat + r.sent, !r.crashed, s.slept + r.pause)
  }

  /** The state after the cycles `inputs`, in order. */
  function Run(s: BotState, inputs: seq<CycleInput>): (t: BotState)
    decreases |inputs|
  {
    if inputs == [] then s else Run(Next(s, inputs[0]), inputs[1..])
  }

  /** Running two batches of cycles in turn is running them together. */
  lemma {:induction false} RunAppend(s: BotState, xs: seq<CycleInput>, ys: seq<CycleInput>)
    ensures Run(s, xs + ys) == Run(Run(s, xs), ys)
    decreases |xs|
  {
    if xs == [] {
      assert xs + ys == ys;
    } else {
      assert (xs + ys)[0] == xs[0];
      assert (xs + ys)[1..] == xs[1..] + ys;
      RunAppend(Next(s, xs[0]), xs[1..], ys);
    }
  }

  /** Once the loop has ended, no further cycle changes anything. */
  lemma {:induction false} RunAfterCrash(s: BotState, inputs: seq<CycleInput>)
    requires !s.alive
    ensures Run(s, inputs) == s
    decreases |inputs|
  {
    if inputs != [] {
      RunAfterCrash(Next(s, inputs[0]), inputs[1..]);
    }
  }

  /**
   * Messages in the chat are never taken back, and each cycle adds at most one.
   */
  lemma {:induction false} ChatOnlyGrows(s: BotState, inputs: seq<CycleInput>)
    ensures var t := Run(s, inputs);
      s.chat <= t.chat && |t.chat| <= |s.chat| + |inputs|
    decreases |inputs|
  {
    if inputs != [] {
      var s' := Next(s, inputs[0]);
      assert s.chat <= s'.chat && |s'.chat| <= |s.chat| + 1;
      ChatOnlyGrows(s', inputs[1..]);
    }
  }

  /**
   * After any run whose last cycle raised nothing, the cursor is that cycle's
   * `current_date`, or its wall-clock time, whatever came before.
   */
  lemma CursorFollowsLastQuietCycle(s: BotState, inputs: seq<CycleInput>, last: CycleInput)
    requires Run(s, inputs).alive
    requires RaisesNothing(last)
    ensures Run(s, inputs + [last]).timestamp == GetHomeworkStatuses(last.fetch).statuses.currentDate.GetOr(last.now)
  {
    RunAppend(s, inputs, [last]);
  }

  // ---------------------------------------------------------------------
  // The bot as an object
  // ---------------------------------------------------------------------

  class Bot {
    /** The poll cursor: homeworks are asked for from this Unix time on. */
    var timestamp: int
    /** Every message that reached the chat, oldest first. */
    var chat: seq<string>
    /** False once an exception has escaped the loop. */
    var alive: bool
    /** Seconds slept between cycles so far. */
    var slept: nat

    function State(): (s: BotState)
      reads this
    {
      BotState(timestamp, chat, alive, slept)
    }

    /** Start-up: the cursor begins at the wall-clock time. */
    constructor (now: int)
      ensures State() == BotState(now, [], true, 0)
    {
      timestamp := now;
      chat := [];
      alive := true;
      slept := 0;
    }

    /** One call to the chat client: the text reaches the chat unless the call raises. */
    method SendMessage(text: string, outcome: Delivery) returns (raised: Option<string>)
      modifies this`chat
      ensures chat == old(chat) + (if outcome.Delivered? then [text] else [])
      ensures raised == (if outcome.Raised? then Some(outcome.error) else None)
    {
      match outcome
      case Delivered =>
        chat := chat + [text];
        raised := None;
      case Raised(error) =>
        raised := Some(error);
    }

    /** One pass of the polling loop, with its exception handler. */
    method Step(input: CycleInput)
      requires alive
      modifies this
      ensures State() == Next(old(State()), input)
    {
      var raised: Option<string> := None;
      match GetHomeworkStatuses(input.fetch) {
        case NonObject(getError) =>
          raised := Some(getError);
        case Object(statuses) =>
          var first := FirstHomework(statuses.homeworks);
          if first.Some? {
            raised := SendMessage(ParseHomeworkStatus(first.value), input.send);
          }
          if raised.None? {
            timestamp := statuses.currentDate.GetOr(input.now);
            slept := slept + PollInterval;
          }
      }
      if raised.Some? {
        var reportRaised := SendMessage(ErrorReport(raised.value), input.report);
        if reportRaised.None? {
          slept := slept + ErrorInterval;
        } else {
          alive := false;
        }
      }
    }

    /** The polling loop over a finite sequence of cycles; it stops early once an exception escapes. */
    method RunCycles(inputs: seq<CycleInput>)
      requires alive
      modifies this
      ensures State() == Run(old(State()), inputs)
    {
      var i := 0;
      while i < |inputs| && alive
        invariant 0 <= i <= |inputs|
        invariant State() == Run(old(State()), inputs[..i])
      {
        RunAppend(old(State()), inputs[..i], [inputs[i]]);
        assert inputs[..i + 1] == inputs[..i] + [inputs[i]];
        Step(inputs[i]);
        i := i + 1;
      }
      RunAppend(old(State()), inputs[..i], inputs[i..]);
      assert inputs[..i] + inputs[i..] == inputs;
      if i < |inputs| {
        RunAfterCrash(State(), inputs[i..]);
      }
    }
  }
}

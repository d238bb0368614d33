/** Delivery to one recipient: `sendToNumber` (index.js:52-176). The tab it opens is driven
    through a scripted automation surface: a `TabScript` says which calls throw, whether the
    invalid-number alert is on the page and what each query for editable elements finds. The
    method reports which exit it took and the actions it issued on the tab, in order. */
module Delivery {
  import opened Results
  import opened Text

  /** The exits of `sendToNumber`. The source returns nothing; the outcome names the path. */
  datatype Outcome =
    | Sent
    | SkippedInvalidNumber
    | SkippedInputNotFound
    | OpenedForManualSend
    | Failed(reason: string)

  /** `Returned` when `sendToNumber` completes (every error inside its `try` is caught there);
      `Threw` when opening the tab fails, which happens before the `try` (index.js:58). */
  datatype DeliveryResult = Returned(outcome: Outcome) | Threw(error: string)

  /** Actions issued on the recipient's tab, recorded when issued (also when they throw). */
  datatype TabAction =
    | Navigate(url: string)   // sendPage.goto(url)
    | AwaitChat               // waitForFunction: an editable element or an alert
    | CheckAlert              // $("div[role='alert']") and reading its text
    | PollInputs              // one $$ query of the input poll and the last element's aria-label
    | LocateInput             // the $$ query after the poll
    | Click                   // el.click() on the last editable element
    | SetText(text: string)   // clear, focus, insertText
    | PressEnter              // keyboard.press("Enter")
    | Close                   // sendPage.close()

  /** Whether the alert element is found after the detection wait; reading it may throw. */
  datatype AlertProbe = NoAlert | AlertShown | AlertProbeThrew(error: string)

  /** One query for the editable elements: the aria-label of each (null when absent), in
      document order, or the error the query throws. */
  datatype Query = Inputs(labels: seq<Option<string>>) | QueryThrew(error: string)

  datatype TabScript = TabScript(
    openError: Option<string>,
    gotoError: Option<string>,
    detectError: Option<string>,
    alert: AlertProbe,
    polls: seq<Query>,        // the answer to each poll; polls past the end find nothing
    locate: Query,            // the answer to the query after the poll
    clickError: Option<string>,
    insertError: Option<string>,
    pressError: Option<string>,
    closeError: Option<string>)

  const MaxPolls: nat := 10
  const ChatUrlPrefix: string := "https://web.whatsapp.com/send?phone="

  /** The error of `el.click()` when the query after the poll finds no element. */
  const MissingInputError: string := "Cannot read properties of undefined (reading 'click')"

  function ChatUrl(mobile: string): string {
    ChatUrlPrefix + mobile
  }

  /** The label test of index.js:115-119: a non-empty label that, lower-cased, contains
      "message" or "type". */
  predicate IsComposerLabel(aria: Option<string>) {
    aria.Some? && aria.value != "" &&
    (Contains(Lower(aria.value), "message") || Contains(Lower(aria.value), "type"))
  }

  /** Only the last editable element is considered (index.js:106-108). */
  predicate LastIsComposer(labels: seq<Option<string>>) {
    |labels| > 0 && IsComposerLabel(labels[|labels| - 1])
  }

  function PollAt(polls: seq<Query>, i: nat): Query {
    if i < |polls| then polls[i] else Inputs([])
  }

  /** A poll that neither throws nor finds the composer: the loop waits and goes on. */
  predicate Quiet(q: Query) {
    q.Inputs? && !LastIsComposer(q.labels)
  }

  predicate Composer(q: Query) {
    q.Inputs? && LastIsComposer(q.labels)
  }

  /** How the input poll ends: the composer is seen at poll `at`, every poll is spent, or
      poll `at` throws. */
  datatype PollVerdict = ComposerAt(at: nat) | Exhausted | PollThrew(at: nat, error: string)

  /** The input poll from poll `i` on, as a recursive specification of the loop. */
  function PollFrom(polls: seq<Query>, i: nat): PollVerdict
    requires i <= MaxPolls
    decreases MaxPolls - i
  {
    if i == MaxPolls then Exhausted
    else match PollAt(polls, i)
      case QueryThrew(e) => PollThrew(i, e)
      case Inputs(labels) => if LastIsComposer(labels) then ComposerAt(i) else PollFrom(polls, i + 1)
  }

  /** How many queries the poll issues before it ends. */
  function PollsIssued(v: PollVerdict): nat {
    match v
    case ComposerAt(k) => k + 1
    case Exhausted => MaxPolls
    case PollThrew(k, _) => k + 1
  }

  /** What the verdict means: the poll stops at the first poll that throws or finds the
      composer, and is exhausted only when all ten polls are quiet. */
  lemma {:induction false} PollVerdictMeaning(polls: seq<Query>, i: nat)
    requires i <= MaxPolls
    ensures match PollFrom(polls, i)
      case ComposerAt(k) =>
        i <= k < MaxPolls && Composer(PollAt(polls, k)) &&
        forall j :: i <= j < k ==> Quiet(PollAt(polls, j))
      case Exhausted =>
        forall j :: i <= j < MaxPolls ==> Quiet(PollAt(polls, j))
      case PollThrew(k, e) =>
        i <= k < MaxPolls && PollAt(polls, k) == QueryThrew(e) &&
        forall j :: i <= j < k ==> Quiet(PollAt(polls, j))
    decreases MaxPolls - i
  {
    if i < MaxPolls && Quiet(PollAt(polls, i)) {
      PollVerdictMeaning(polls, i + 1);
    }
  }

  /** The poll finds the input exactly when some poll among the ten finds the composer and
      no earlier poll threw or found it. */
  lemma ComposerFoundIff(polls: seq<Query>)
    ensures PollFrom(polls, 0).ComposerAt? <==>
      exists k :: 0 <= k < MaxPolls && Composer(PollAt(polls, k)) &&
        forall j :: 0 <= j < k ==> Quiet(PollAt(polls, j))
  {
    PollVerdictMeaning(polls, 0);
  }

  /** Every error message the script can raise inside the `try`. */
  function ScriptErrors(s: TabScript): set<string> {
    (if s.gotoError.Some? then {s.gotoError.value} else {}) +
    (if s.detectError.Some? then {s.detectError.value} else {}) +
    (if s.alert.AlertProbeThrew? then {s.alert.error} else {}) +
    (set i | 0 <= i < |s.polls| && s.polls[i].QueryThrew? :: s.polls[i].error) +
    (if s.locate.QueryThrew? then {s.locate.error} else {MissingInputError}) +
    (if s.clickError.Some? then {s.clickError.value} else {}) +
    (if s.insertError.Some? then {s.insertError.value} else {}) +
    (if s.pressError.Some? then {s.pressError.value} else {}) +
    (if s.closeError.Some? then {s.closeError.value} else {})
  }

  /** Navigation and the detection wait succeeded: the chat view or the alert is up. */
  predicate Detected(s: TabScript) {
    s.openError.None? && s.gotoError.None? && s.detectError.None?
  }

  predicate IsInteraction(a: TabAction) {
    a.Click? || a.SetText? || a.PressEnter?
  }

  /** No click, text insertion or key press on the tab. */
  predicate NoTyping(trace: seq<TabAction>) {
    forall i :: 0 <= i < |trace| ==> !IsInteraction(trace[i])
  }

  /** How many times `a` occurs in `trace`. */
  function Occurrences(trace: seq<TabAction>, a: TabAction): nat {
    if trace == [] then 0 else (if trace[0] == a then 1 else 0) + Occurrences(trace[1..], a)
  }

  lemma {:induction false} OccurrencesAppend(x: seq<TabAction>, y: seq<TabAction>, a: TabAction)
    ensures Occurrences(x + y, a) == Occurrences(x, a) + Occurrences(y, a)
  {
    if x == [] {
      assert x + y == y;
    } else {
      assert (x + y)[1..] == x[1..] + y;
      OccurrencesAppend(x[1..], y, a);
    }
  }

  lemma {:induction false} OccurrencesAbsent(x: seq<TabAction>, a: TabAction)
    requires a !in x
    ensures Occurrences(x, a) == 0
  {
    if x != [] {
      OccurrencesAbsent(x[1..], a);
    }
  }

  lemma PollErrorIsScriptError(s: TabScript, k: nat, e: string)
    requires k < MaxPolls && PollAt(s.polls, k) == QueryThrew(e)
    ensures e in ScriptErrors(s)
  {
    assert k < |s.polls| && s.polls[k].QueryThrew?;
  }

  /** How a stretch of the `try` block ends: it returns, or it throws `error` to the `catch`. */
  datatype Exit = Done(outcome: Outcome) | Caught(error: string)

  /** An exit together with the tab actions issued on the way to it. */
  datatype Run = Run(exit: Exit, acts: seq<TabAction>)

  /** The queries of an input poll that ended with `v`. */
  function PollTrace(v: PollVerdict): seq<TabAction> {
    seq(PollsIssued(v), _ => PollInputs)
  }

  /** The poll of index.js:103-125: at most ten queries; after each quiet one the loop waits
      and tries again, and the first one that finds the composer ends it. */
  method PollForComposer(polls: seq<Query>) returns (v: PollVerdict, issued: seq<TabAction>)
    ensures v == PollFrom(polls, 0)
    ensures issued == PollTrace(v)
  {
    var inputFound := false;
    var i := 0;
    issued := [];
    while i < MaxPolls
      invariant 0 <= i <= MaxPolls
      invariant PollFrom(polls, i) == PollFrom(polls, 0)
      invariant issued == seq(i, _ => PollInputs)
    {
      issued := issued + [PollInputs];
      match PollAt(polls, i)
      case QueryThrew(e) =>
        v := PollThrew(i, e);
        return;
      case Inputs(labels) =>
        if LastIsComposer(labels) {
          inputFound := true;
          break;
        }
      i := i + 1;
    }
    v := if inputFound then ComposerAt(i) else Exhausted;
  }

  /** What the poll issues: at most ten queries and nothing else. */
  lemma PollTraceShape(polls: seq<Query>)
    ensures Occurrences(PollTrace(PollFrom(polls, 0)), PollInputs) == PollsIssued(PollFrom(polls, 0)) <= MaxPolls
    ensures PollFrom(polls, 0) == Exhausted ==> PollsIssued(PollFrom(polls, 0)) == MaxPolls
    ensures NoTyping(PollTrace(PollFrom(polls, 0))) && Close !in PollTrace(PollFrom(polls, 0))
  {
    PollVerdictMeaning(polls, 0);
    var v := PollFrom(polls, 0);
    PollsAreOnlyPolls(PollsIssued(v));
  }

  lemma {:induction false} PollsAreOnlyPolls(n: nat)
    ensures Occurrences(seq(n, _ => PollInputs), PollInputs) == n
  {
    if n > 0 {
      assert seq(n, _ => PollInputs) == [PollInputs] + seq(n - 1, _ => PollInputs);
      PollsAreOnlyPolls(n - 1);
    }
  }

  /** The actions of index.js:134-164, in order. */
  function SendSteps(message: string): seq<TabAction> {
    [LocateInput, Click, SetText(message), PressEnter, Close]
  }

  /** Lines 133-164, once the poll has seen the composer: query the editable elements again,
      click the last one, insert the message, press Enter, close. A click on a missing
      element throws. */
  function TypingRun(message: string, s: TabScript): Run {
    var steps := SendSteps(message);
    if s.locate.QueryThrew? then Run(Caught(s.locate.error), steps[..1])
    else if |s.locate.labels| == 0 then Run(Caught(MissingInputError), steps[..2])
    else if s.clickError.Some? then Run(Caught(s.clickError.value), steps[..2])
    else if s.insertError.Some? then Run(Caught(s.insertError.value), steps[..3])
    else if s.pressError.Some? then Run(Caught(s.pressError.value), steps[..4])
    else if s.closeError.Some? then Run(Caught(s.closeError.value), steps)
    else Run(Done(Sent), steps)
  }

  /** Lines 93-164 with `autoSend` on: the input poll, then either closing the tab when the
      composer never showed up or typing and sending. */
  function AutoSendRun(message: string, s: TabScript): Run {
    var v := PollFrom(s.polls, 0);
    match v
    case PollThrew(_, e) => Run(Caught(e), PollTrace(v))
    case Exhausted =>
      Run(if s.closeError.None? then Done(SkippedInputNotFound) else Caught(s.closeError.value),
          PollTrace(v) + [Close])
    case ComposerAt(_) =>
      var t := TypingRun(message, s);
      Run(t.exit, PollTrace(v) + t.acts)
  }

  /** The `try` block of index.js:59-169: navigate, wait for the chat or the alert, skip on
      an alert, stop in manual mode, otherwise the auto-send path. */
  function TryRun(mobile: string, message: string, autoSend: bool, s: TabScript): Run {
    var url := ChatUrl(mobile);
    var head := [Navigate(url), AwaitChat, CheckAlert];
    if s.gotoError.Some? then Run(Caught(s.gotoError.value), [Navigate(url)])
    else if s.detectError.Some? then Run(Caught(s.detectError.value), [Navigate(url), AwaitChat])
    else match s.alert
      case AlertProbeThrew(e) => Run(Caught(e), head)
      case AlertShown =>
        Run(if s.closeError.None? then Done(SkippedInvalidNumber) else Caught(s.closeError.value),
            head + [Close])
      case NoAlert =>
        if !autoSend then Run(Done(OpenedForManualSend), head)
        else
          var t := AutoSendRun(message, s);
          Run(t.exit, head + t.acts)
  }

  /** `sendToNumber(mobile, message, autoSend)` as a whole: opening the tab precedes the
      `try` and its failure escapes; an error thrown in the `try` is caught, the tab is closed
      once more (that close's own error is swallowed) and the function returns. */
  function SendToNumber(mobile: string, message: string, autoSend: bool, s: TabScript): (DeliveryResult, seq<TabAction>) {
    if s.openError.Some? then (Threw(s.openError.value), [])
    else
      var t := TryRun(mobile, message, autoSend, s);
      match t.exit
      case Done(o) => (Returned(o), t.acts)
      case Caught(e) => (Returned(Failed(e)), t.acts + [Close])
  }

  method TypeAndSend(message: string, s: TabScript) returns (exit: Exit, acts: seq<TabAction>)
    ensures Run(exit, acts) == TypingRun(message, s)
  {
    acts := [LocateInput];
    if s.locate.QueryThrew? {
      return Caught(s.locate.error), acts;
    }
    acts := acts + [Click];
    if |s.locate.labels| == 0 {
      return Caught(MissingInputError), acts;
    }
    if s.clickError.Some? {
      return Caught(s.clickError.value), acts;
    }
    acts := acts + [SetText(message)];
    if s.insertError.Some? {
      return Caught(s.insertError.value), acts;
    }
    acts := acts + [PressEnter];
    if s.pressError.Some? {
      return Caught(s.pressError.value), acts;
    }
    acts := acts + [Close];
    if s.closeError.Some? {
      return Caught(s.closeError.value), acts;
    }
    exit := Done(Sent);
  }

  method AutoSendPath(message: string, s: TabScript) returns (exit: Exit, acts: seq<TabAction>)
    ensures Run(exit, acts) == AutoSendRun(message, s)
  {
    var verdict, polled := PollForComposer(s.polls);
    match verdict
    case PollThrew(_, e) =>
      exit, acts := Caught(e), polled;
    case Exhausted =>
      acts := polled + [Close];
      exit := if s.closeError.None? then Done(SkippedInputNotFound) else Caught(s.closeError.value);
    case ComposerAt(_) =>
      var typed;
      exit, typed := TypeAndSend(message, s);
      acts := polled + typed;
  }

  /** `sendToNumber(mobile, message, autoSend)`. */
  method Deliver(mobile: string, message: string, autoSend: bool, s: TabScript)
    returns (r: DeliveryResult, trace: seq<TabAction>)
    ensures (r, trace) == SendToNumber(mobile, message, autoSend, s)
  {
    if s.openError.Some? {
      return Threw(s.openError.value), [];
    }
    var exit: Exit;
    trace := [Navigate(ChatUrl(mobile))];
    if s.gotoError.Some? {
      exit := Caught(s.gotoError.value);
    } else {
      trace := trace + [AwaitChat];
      assert trace == [Navigate(ChatUrl(mobile)), AwaitChat];
      if s.detectError.Some? {
        exit := Caught(s.detectError.value);
      } else {
        trace := trace + [CheckAlert];
        assert trace == [Navigate(ChatUrl(mobile)), AwaitChat, CheckAlert];
        match s.alert
        case AlertProbeThrew(e) =>
          exit := Caught(e);
        case AlertShown =>
          trace := trace + [Close];
          exit := if s.closeError.None? then Done(SkippedInvalidNumber) else Caught(s.closeError.value);
        case NoAlert =>
          if autoSend {
            var acts;
            exit, acts := AutoSendPath(message, s);
            trace := trace + acts;
          } else {
            // the tab is left open for the operator
            exit := Done(OpenedForManualSend);
          }
      }
    }
    match exit
    case Done(outcome) =>
      r := Returned(outcome);
    case Caught(e) =>
      // catch (index.js:170-175): close once more, swallowing its error
      trace := trace + [Close];
      r := Returned(Failed(e));
  }

  // ---------------------------------------------------------------------------------------
  // What the delivery promises, proved of its specification.

  /** Only opening the tab throws out of `sendToNumber`; then nothing was issued. When the tab
      opens, navigation to the recipient's chat comes first. */
  lemma OnlyOpeningThrows(mobile: string, message: string, autoSend: bool, s: TabScript)
    ensures var (r, trace) := SendToNumber(mobile, message, autoSend, s);
      (r.Threw? <==> s.openError.Some?) &&
      (r.Threw? ==> r.error == s.openError.value && trace == []) &&
      (r.Returned? ==> |trace| > 0 && trace[0] == Navigate(ChatUrl(mobile)))
  {
  }

  /** Every exit closes the tab, except the one that hands the chat to the operator. */
  lemma ClosesOnEveryExitButManual(mobile: string, message: string, autoSend: bool, s: TabScript)
    ensures var (r, trace) := SendToNumber(mobile, message, autoSend, s);
      r.Returned? && r.outcome != OpenedForManualSend ==> |trace| > 0 && trace[|trace| - 1] == Close
  {
  }

  /** With `autoSend` off and no alert, the tab stays open and nothing is typed or sent. */
  lemma ManualSendLeavesTabOpen(mobile: string, message: string, autoSend: bool, s: TabScript)
    ensures var (r, trace) := SendToNumber(mobile, message, autoSend, s);
      (r == Returned(OpenedForManualSend) <==> Detected(s) && s.alert == NoAlert && !autoSend) &&
      (r == Returned(OpenedForManualSend) ==> Close !in trace && NoTyping(trace))
  {
  }

  /** The alert is checked before anything else: when it is shown, the poll and all typing
      are skipped, even if an editable element is on the page too, and the tab is closed
      exactly once unless that close throws. */
  lemma AlertPreemptsTyping(mobile: string, message: string, autoSend: bool, s: TabScript)
    ensures var (r, trace) := SendToNumber(mobile, message, autoSend, s);
      (r == Returned(SkippedInvalidNumber) <==> Detected(s) && s.alert == AlertShown && s.closeError.None?) &&
      (s.alert == AlertShown ==> NoTyping(trace) && PollInputs !in trace) &&
      (r == Returned(SkippedInvalidNumber) ==> Occurrences(trace, Close) == 1)
  {
    var (r, trace) := SendToNumber(mobile, message, autoSend, s);
    if r == Returned(SkippedInvalidNumber) {
      assert trace == [Navigate(ChatUrl(mobile)), AwaitChat, CheckAlert] + [Close];
      OccurrencesAppend([Navigate(ChatUrl(mobile)), AwaitChat, CheckAlert], [Close], Close);
      OccurrencesAbsent([Navigate(ChatUrl(mobile)), AwaitChat, CheckAlert], Close);
    }
  }

  /** The queries for the message input on the auto-send path are those of the poll. */
  lemma AutoSendRunPolls(message: string, s: TabScript)
    ensures Occurrences(AutoSendRun(message, s).acts, PollInputs) == PollsIssued(PollFrom(s.polls, 0))
  {
    var v := PollFrom(s.polls, 0);
    PollTraceShape(s.polls);
    match v
    case PollThrew(_, _) =>
    case Exhausted =>
      OccurrencesAppend(PollTrace(v), [Close], PollInputs);
    case ComposerAt(_) =>
      var typed := TypingRun(message, s);
      OccurrencesAbsent(typed.acts, PollInputs);
      OccurrencesAppend(PollTrace(v), typed.acts, PollInputs);
  }

  /** The queries for the message input that `TryRun` issues are those of the poll. */
  lemma TryRunPolls(mobile: string, message: string, autoSend: bool, s: TabScript)
    ensures Occurrences(TryRun(mobile, message, autoSend, s).acts, PollInputs) ==
      if s.gotoError.None? && s.detectError.None? && s.alert == NoAlert && autoSend
      then PollsIssued(PollFrom(s.polls, 0)) else 0
  {
    var t := TryRun(mobile, message, autoSend, s);
    var head := [Navigate(ChatUrl(mobile)), AwaitChat, CheckAlert];
    OccurrencesAbsent(head, PollInputs);
    if s.gotoError.None? && s.detectError.None? && s.alert == NoAlert && autoSend {
      AutoSendRunPolls(message, s);
      OccurrencesAppend(head, AutoSendRun(message, s).acts, PollInputs);
    } else if s.gotoError.Some? {
      OccurrencesAbsent([Navigate(ChatUrl(mobile))], PollInputs);
    } else if s.detectError.Some? {
      OccurrencesAbsent([Navigate(ChatUrl(mobile)), AwaitChat], PollInputs);
    } else if s.alert == AlertShown {
      OccurrencesAbsent(head + [Close], PollInputs);
    }
  }

  /** At most ten queries for the message input are issued. */
  lemma PollIsBounded(mobile: string, message: string, autoSend: bool, s: TabScript)
    ensures var (r, trace) := SendToNumber(mobile, message, autoSend, s);
      Occurrences(trace, PollInputs) <= MaxPolls
  {
    PollTraceShape(s.polls);
    TryRunPolls(mobile, message, autoSend, s);
    var (r, trace) := SendToNumber(mobile, message, autoSend, s);
    if s.openError.None? {
      var t := TryRun(mobile, message, autoSend, s);
      OccurrencesAppend(t.acts, [Close], PollInputs);
    }
  }

  /** The input is given up exactly when all ten polls came back without the composer; the
      tab is then closed and nothing is typed. */
  lemma InputNotFoundCloses(mobile: string, message: string, autoSend: bool, s: TabScript)
    ensures var (r, trace) := SendToNumber(mobile, message, autoSend, s);
      (r == Returned(SkippedInputNotFound) <==>
        Detected(s) && s.alert == NoAlert && autoSend && PollFrom(s.polls, 0) == Exhausted && s.closeError.None?) &&
      (r == Returned(SkippedInputNotFound) ==>
        NoTyping(trace) && Occurrences(trace, PollInputs) == MaxPolls && trace[|trace| - 1] == Close)
  {
    PollTraceShape(s.polls);
    TryRunPolls(mobile, message, autoSend, s);
  }

  /** A message is sent exactly when the chat opened without an alert, the poll found the
      composer and every later call succeeded; the tab then sees a click, the message, Enter
      and the close, in this order and with no other interaction before them. */
  lemma SendsInOrder(mobile: string, message: string, autoSend: bool, s: TabScript)
    ensures var (r, trace) := SendToNumber(mobile, message, autoSend, s);
      (r == Returned(Sent) <==>
        Detected(s) && s.alert == NoAlert && autoSend && PollFrom(s.polls, 0).ComposerAt? &&
        s.locate.Inputs? && |s.locate.labels| > 0 &&
        s.clickError.None? && s.insertError.None? && s.pressError.None? && s.closeError.None?) &&
      (r == Returned(Sent) ==>
        |trace| >= 4 && trace[|trace| - 4..] == [Click, SetText(message), PressEnter, Close] &&
        NoTyping(trace[..|trace| - 4]) && Close !in trace[..|trace| - 4])
  {
    PollTraceShape(s.polls);
  }

  /** The only text ever inserted is the message. */
  lemma InsertsOnlyTheMessage(mobile: string, message: string, autoSend: bool, s: TabScript)
    ensures var (r, trace) := SendToNumber(mobile, message, autoSend, s);
      forall i :: 0 <= i < |trace| && trace[i].SetText? ==> trace[i].text == message
  {
    PollTraceShape(s.polls);
  }

  /** A `Failed` outcome carries the message of an error the automation surface raised. */
  lemma FailureCarriesScriptError(mobile: string, message: string, autoSend: bool, s: TabScript)
    ensures var (r, trace) := SendToNumber(mobile, message, autoSend, s);
      r.Returned? && r.outcome.Failed? ==> r.outcome.reason in ScriptErrors(s)
  {
    PollVerdictMeaning(s.polls, 0);
    match PollFrom(s.polls, 0)
    case PollThrew(k, e) => PollErrorIsScriptError(s, k, e);
    case _ =>
  }
}

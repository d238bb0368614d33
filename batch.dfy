/** The handler of `POST /send-messages` (index.js:181-210): intake, one login check, then
    the recipients one after another, each normalised and handed to `sendToNumber`. */
module Batch {
  import opened Results
  import opened Text
  import opened JsValues
  import opened Recipient
  import opened Intake
  import opened Session
  import opened Delivery

  /** The tabs the browser opens for the entries, in order: entry `k` gets `surface[k]`;
      past the end of the sequence opening a tab fails with `NoTab`. */
  const NoTab: string := "no tab available"

  function TabFor(surface: seq<TabScript>, k: nat): (s: TabScript)
    ensures k >= |surface| ==> s.openError == Some(NoTab)
  {
    if k < |surface| then surface[k]
    else TabScript(Some(NoTab), None, None, NoAlert, [], Inputs([]), None, None, None, None)
  }

  /** One recipient's turn: the number it was sent to and what `sendToNumber` did. */
  datatype Attempt = Attempt(mobile: string, result: DeliveryResult, trace: seq<TabAction>)

  /** The response of a batch and the attempts made, in order. */
  datatype Report = Report(response: Response, attempts: seq<Attempt>)

  /** One entry of the list: `num.toString()` (a TypeError for null), the normalised number
      and the delivery to it; `Err` when the conversion throws. */
  function EntryAttempt(num: JsValue, message: string, autoSend: bool, script: TabScript): Result<Attempt, string> {
    match ToString(num)
    case Err(e) => Err(e)
    case Ok(text) =>
      var mobile := Normalize(text);
      var (r, trace) := SendToNumber(mobile, message, autoSend, script);
      Ok(Attempt(mobile, r, trace))
  }

  /** What each entry comes to if the loop reaches it: entry `j` is converted, normalised
      and delivered on the tab `TabFor(surface, j)`. */
  function Plan(items: seq<JsValue>, message: string, autoSend: bool, surface: seq<TabScript>): (p: seq<Result<Attempt, string>>)
    ensures |p| == |items|
  {
    seq(|items|, j requires 0 <= j < |items| => EntryAttempt(items[j], message, autoSend, TabFor(surface, j)))
  }

  /** The stopping rule of the loop of index.js:198-205, from entry `k` on: it goes on after
      every outcome `sendToNumber` returns and stops at the first entry that cannot be
      converted or whose delivery throws. */
  function Stop(plan: seq<Result<Attempt, string>>, k: nat): Report
    decreases |plan| - k
  {
    if k >= |plan| then Report(Completed, [])
    else match plan[k]
      case Err(e) => Report(FailedWith(e), [])
      case Ok(a) =>
        if a.result.Threw? then Report(FailedWith(a.result.error), [a])
        else
          var rest := Stop(plan, k + 1);
          Report(rest.response, [a] + rest.attempts)
  }

  /** The `try` block of index.js:195-206 once the session is ready. */
  function RunBatch(items: seq<JsValue>, message: string, autoSend: bool, surface: seq<TabScript>): Report {
    Stop(Plan(items, message, autoSend, surface), 0)
  }

  /** Entry `num` gets through: it converts to a string and its tab opens. */
  predicate EntryProceeds(num: JsValue, script: TabScript) {
    ToString(num).Ok? && script.openError.None?
  }

  /** The body of the loop for one entry. */
  method DeliverEntry(num: JsValue, message: string, autoSend: bool, script: TabScript)
    returns (attempt: Result<Attempt, string>)
    ensures attempt == EntryAttempt(num, message, autoSend, script)
  {
    var text := ToString(num);
    if text.Err? {
      return Err(text.error);
    }
    var mobile := DigitsOnly(text.value);
    if !StartsWith(mobile, CountryCode) {
      mobile := CountryCode + mobile;
    }
    var r, trace := Deliver(mobile, message, autoSend, script);
    attempt := Ok(Attempt(mobile, r, trace));
  }

  /** The loop of index.js:198-205. */
  method DeliverAll(items: seq<JsValue>, message: string, autoSend: bool, surface: seq<TabScript>)
    returns (resp: Response, attempts: seq<Attempt>)
    ensures Report(resp, attempts) == RunBatch(items, message, autoSend, surface)
  {
    ghost var plan := Plan(items, message, autoSend, surface);
    attempts := [];
    var k := 0;
    while k < |items|
      invariant 0 <= k <= |items|
      invariant Stop(plan, 0) == Report(Stop(plan, k).response, attempts + Stop(plan, k).attempts)
    {
      var attempt := DeliverEntry(items[k], message, autoSend, TabFor(surface, k));
      assert attempt == plan[k];
      StopStep(plan, k, attempts);
      if attempt.Err? {
        return FailedWith(attempt.error), attempts;
      }
      attempts := attempts + [attempt.value];
      if attempt.value.result.Threw? {
        return FailedWith(attempt.value.result.error), attempts;
      }
      k := k + 1;
    }
    StopStep(plan, k, attempts);
    resp := Completed;
  }

  /** One turn of the loop, in terms of what is left of the run: `done` are the attempts
      made before entry `k`. */
  lemma StopStep(plan: seq<Result<Attempt, string>>, k: nat, done: seq<Attempt>)
    requires k <= |plan|
    requires Stop(plan, 0) == Report(Stop(plan, k).response, done + Stop(plan, k).attempts)
    ensures k == |plan| ==> Stop(plan, 0) == Report(Completed, done)
    ensures k < |plan| && plan[k].Err? ==> Stop(plan, 0) == Report(FailedWith(plan[k].error), done)
    ensures k < |plan| && plan[k].Ok? && plan[k].value.result.Threw? ==>
      Stop(plan, 0) == Report(FailedWith(plan[k].value.result.error), done + [plan[k].value])
    ensures k < |plan| && plan[k].Ok? && plan[k].value.result.Returned? ==>
      Stop(plan, 0) == Report(Stop(plan, k + 1).response, (done + [plan[k].value]) + Stop(plan, k + 1).attempts)
  {
    if k == |plan| || plan[k].Err? {
      assert done + [] == done;
    } else if plan[k].value.result.Returned? {
      var rest := Stop(plan, k + 1);
      assert done + ([plan[k].value] + rest.attempts) == (done + [plan[k].value]) + rest.attempts;
    }
  }

  // ---------------------------------------------------------------------------------------
  // What the batch promises, proved of its specification.

  /** The attempts are the planned entries from `k` on, in order and without gaps: entry
      `k + j` gives attempt `j`. */
  lemma {:induction false} AttemptsFollowPlan(plan: seq<Result<Attempt, string>>, k: nat)
    requires k <= |plan|
    ensures var rep := Stop(plan, k);
      k + |rep.attempts| <= |plan| &&
      forall j :: 0 <= j < |rep.attempts| ==> plan[k + j] == Ok(rep.attempts[j])
    decreases |plan| - k
  {
    if k < |plan| && plan[k].Ok? && plan[k].value.result.Returned? {
      AttemptsFollowPlan(plan, k + 1);
      var rest := Stop(plan, k + 1);
      var rep := Stop(plan, k);
      assert rep.attempts == [plan[k].value] + rest.attempts;
      forall j | 0 < j < |rep.attempts|
        ensures plan[k + j] == Ok(rep.attempts[j])
      {
        assert rep.attempts[j] == rest.attempts[j - 1];
        assert k + j == (k + 1) + (j - 1);
      }
    }
  }

  /** Per-recipient isolation: the run completes, having attempted every entry, exactly when
      every entry from `k` on converts and returns from its delivery. */
  lemma {:induction false} CompletesIffEveryEntryReturns(plan: seq<Result<Attempt, string>>, k: nat)
    requires k <= |plan|
    ensures var rep := Stop(plan, k);
      (rep.response == Completed <==>
        forall j :: k <= j < |plan| ==> plan[j].Ok? && plan[j].value.result.Returned?) &&
      (rep.response == Completed ==> k + |rep.attempts| == |plan|)
    decreases |plan| - k
  {
    if k < |plan| {
      CompletesIffEveryEntryReturns(plan, k + 1);
    }
  }

  /** A failed run reports the error that stopped it, and every attempt but the last one
      returned normally. */
  lemma {:induction false} FailureNamesTheStoppingError(plan: seq<Result<Attempt, string>>, k: nat)
    requires k <= |plan|
    ensures var rep := Stop(plan, k);
      (forall j :: 0 <= j < |rep.attempts| - 1 ==> rep.attempts[j].result.Returned?) &&
      (rep.response != Completed ==>
        rep.response.status == "failed" &&
        if |rep.attempts| > 0 && rep.attempts[|rep.attempts| - 1].result.Threw?
        then rep.response.message == rep.attempts[|rep.attempts| - 1].result.error
        else k + |rep.attempts| < |plan| && plan[k + |rep.attempts|] == Err(rep.response.message))
    decreases |plan| - k
  {
    if k < |plan| && plan[k].Ok? && plan[k].value.result.Returned? {
      FailureNamesTheStoppingError(plan, k + 1);
      var rest := Stop(plan, k + 1);
      var rep := Stop(plan, k);
      assert rep.attempts == [plan[k].value] + rest.attempts;
      assert forall j :: 0 < j < |rep.attempts| ==> rep.attempts[j] == rest.attempts[j - 1];
      if |rest.attempts| == 0 || rest.attempts[|rest.attempts| - 1].result.Returned? {
        assert k + 1 + |rest.attempts| == k + |rep.attempts|;
      }
    }
  }

  /** Whether an entry's tab opens decides whether its delivery throws. */
  lemma EntryThrowsIffTabFails(num: JsValue, message: string, autoSend: bool, script: TabScript)
    requires ToString(num).Ok?
    ensures EntryAttempt(num, message, autoSend, script).Ok?
    ensures EntryAttempt(num, message, autoSend, script).value.result.Threw? <==> script.openError.Some?
  {
    OnlyOpeningThrows(Normalize(ToString(num).value), message, autoSend, script);
  }

  /** The batch completes exactly when every entry converts and every tab opens; no outcome
      of `sendToNumber` (sent, skipped, left open or failed) stops it. */
  lemma CompletesIffEveryEntryProceeds(items: seq<JsValue>, message: string, autoSend: bool, surface: seq<TabScript>)
    ensures var rep := RunBatch(items, message, autoSend, surface);
      (rep.response == Completed <==> forall j :: 0 <= j < |items| ==> EntryProceeds(items[j], TabFor(surface, j))) &&
      (rep.response == Completed ==> |rep.attempts| == |items|)
  {
    var plan := Plan(items, message, autoSend, surface);
    CompletesIffEveryEntryReturns(plan, 0);
    forall j | 0 <= j < |items|
      ensures EntryProceeds(items[j], TabFor(surface, j)) <==> plan[j].Ok? && plan[j].value.result.Returned?
    {
      if ToString(items[j]).Ok? {
        EntryThrowsIffTabFails(items[j], message, autoSend, TabFor(surface, j));
      }
    }
  }

  /** Attempt `a` is the delivery of entry `num`: to the entry's normalised number, and, when
      it returns, starting with navigation to that number's chat. */
  predicate DeliveredTo(num: JsValue, a: Attempt) {
    ToString(num).Ok? && a.mobile == Normalize(ToString(num).value) &&
    (a.result.Returned? ==> |a.trace| > 0 && a.trace[0] == Navigate(ChatUrl(a.mobile)))
  }

  /** Attempt `j` of a batch is the delivery of entry `j`: the attempts follow the input
      order, one per entry, and there are never more attempts than entries. */
  lemma AttemptsFollowInput(items: seq<JsValue>, message: string, autoSend: bool, surface: seq<TabScript>, j: nat)
    ensures |RunBatch(items, message, autoSend, surface).attempts| <= |items|
    ensures j < |RunBatch(items, message, autoSend, surface).attempts| ==>
      DeliveredTo(items[j], RunBatch(items, message, autoSend, surface).attempts[j])
  {
    var plan := Plan(items, message, autoSend, surface);
    AttemptIsPlanned(plan, j);
    if j < |Stop(plan, 0).attempts| {
      PlannedAttempt(items, message, autoSend, surface, j, Stop(plan, 0).attempts[j]);
    }
  }

  /** Attempt `j` of a whole run is the plan's entry `j`. */
  lemma AttemptIsPlanned(plan: seq<Result<Attempt, string>>, j: nat)
    ensures |Stop(plan, 0).attempts| <= |plan|
    ensures j < |Stop(plan, 0).attempts| ==> plan[j] == Ok(Stop(plan, 0).attempts[j])
  {
    AttemptsFollowPlan(plan, 0);
    if j < |Stop(plan, 0).attempts| {
      assert plan[0 + j] == Ok(Stop(plan, 0).attempts[j]);
    }
  }

  /** An attempt planned for an entry is the delivery of that entry. */
  lemma PlannedAttempt(items: seq<JsValue>, message: string, autoSend: bool, surface: seq<TabScript>, j: nat, a: Attempt)
    requires j < |items| && Plan(items, message, autoSend, surface)[j] == Ok(a)
    ensures DeliveredTo(items[j], a)
  {
    OnlyOpeningThrows(a.mobile, message, autoSend, TabFor(surface, j));
  }

  /** `app.post("/send-messages", ...)`: reject an empty list before touching the session,
      log in at most once, then deliver; a thrown error becomes a failed response with its
      message. The global session is passed in. */
  method HandleSendMessages(session: WhatsAppSession, req: Request, login: LoginScript, surface: seq<TabScript>)
    returns (resp: Response, attempts: seq<Attempt>)
    requires session.Valid()
    modifies session
    ensures session.Valid()
    ensures Accept(req).Err? ==> resp == NoNumbers && attempts == [] && unchanged(session)
    ensures Accept(req).Ok? && old(session.State()) == Ready ==> session.log == old(session.log)
    ensures Accept(req).Ok? && old(session.State()) != Ready ==> session.log == old(session.log) + Attempted(login)
    ensures Accept(req).Ok? && old(session.State()) == Ready ==>
      session.State() == Ready && session.browser == old(session.browser) && session.page == old(session.page)
    ensures Accept(req).Ok? && old(session.State()) != Ready && !LoginFails(login) ==>
      session.State() == Ready && session.browser == Some(login.browserId) && session.page == Some(login.pageId)
    ensures Accept(req).Ok? && old(session.State()) != Ready && LoginFails(login) ==>
      resp == FailedWith(login.failure.value.error) && attempts == [] && session.State() != Ready
    ensures Accept(req).Ok? && old(session.State()) != Ready && LoginFails(login) ==>
      session.browser == (if login.failure.value.step == 0 then old(session.browser) else Some(login.browserId)) &&
      session.page == (if login.failure.value.step <= 1 then old(session.page) else Some(login.pageId))
    ensures attempts != [] || resp == Completed ==> session.State() == Ready
    ensures Accept(req).Ok? && session.State() == Ready ==>
      var items := Iterate(Accept(req).value.numbers, "numbersList");
      (items.Err? ==> resp == FailedWith(items.error) && attempts == []) &&
      (items.Ok? ==> Report(resp, attempts) == RunBatch(items.value, req.message, AutoSend(req), surface))
  {
    var accepted := Accept(req);
    if accepted.Err? {
      return accepted.error, [];
    }
    var batch := accepted.value;
    var ready := session.InitWhatsApp(login);
    if ready.Err? {
      return FailedWith(ready.error), [];
    }
    var items := Iterate(batch.numbers, "numbersList");
    if items.Err? {
      return FailedWith(items.error), [];
    }
    resp, attempts := DeliverAll(items.value, batch.message, batch.autoSend, surface);
  }
}

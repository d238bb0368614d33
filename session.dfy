/** The login session (index.js:9-11, 19-47): the module globals `browser`, `page` and
    `isLoggedIn`, and `initWhatsApp`, which sets them up once. Launching the browser, opening
    the page, loading the client and the two selector waits are calls on the automation
    surface; a `LoginScript` says which of them throws, if any. */
module Session {
  import opened Results

  datatype SessionState = Uninitialized | AwaitingAuthentication | Ready

  /** The calls `initWhatsApp` makes, in order. */
  datatype SessionAction =
    | LaunchBrowser
    | NewPage
    | Goto(url: string)
    | WaitForSelector(selector: string)

  const ClientUrl: string := "https://web.whatsapp.com"
  const LoginCanvas: string := "canvas"
  const ChatListMarker: string := "div[data-tab=\"3\"]"

  const LoginSteps: seq<SessionAction> :=
    [LaunchBrowser, NewPage, Goto(ClientUrl), WaitForSelector(LoginCanvas), WaitForSelector(ChatListMarker)]

  /** The call at position `step` of `LoginSteps` throws `error`. */
  datatype LoginFailure = LoginFailure(step: nat, error: string)

  /** What the automation surface does during one initialisation: the failing call, if any,
      and the handles of the browser and the page it creates. */
  datatype LoginScript = LoginScript(failure: Option<LoginFailure>, browserId: nat, pageId: nat)

  /** The calls one initialisation issues: all of them, or those up to the failing one. */
  function Attempted(login: LoginScript): (r: seq<SessionAction>)
    ensures 0 < |r| <= |LoginSteps| && r == LoginSteps[..|r|]
    ensures login.failure.None? ==> r == LoginSteps
    ensures LoginFails(login) ==> |r| == login.failure.value.step + 1
  {
    match login.failure
    case None => LoginSteps
    case Some(f) => if f.step < |LoginSteps| then LoginSteps[..f.step + 1] else LoginSteps
  }

  /** The failing call, if it is one that `initWhatsApp` makes. */
  function FailsAt(login: LoginScript, step: nat): Option<string> {
    match login.failure
    case Some(f) => if f.step == step then Some(f.error) else None
    case None => None
  }

  /** Whether any of the five calls throws. */
  predicate LoginFails(login: LoginScript) {
    login.failure.Some? && login.failure.value.step < |LoginSteps|
  }

  class WhatsAppSession {
    var browser: Option<nat>
    var page: Option<nat>
    var loggedIn: bool
    /** Every call issued on the automation surface by initialisation so far. */
    ghost var log: seq<SessionAction>

    /** `isLoggedIn` is set only after `browser` and `page` have been assigned. */
    ghost predicate Valid()
      reads this
    {
      loggedIn ==> browser.Some? && page.Some?
    }

    /** `browser && page && isLoggedIn` is the guard of index.js:20. */
    function State(): SessionState
      reads this
    {
      if browser.Some? && page.Some? && loggedIn then Ready
      else if browser.None? then Uninitialized
      else AwaitingAuthentication
    }

    /** The globals' initial values (index.js:9-11). */
    constructor ()
      ensures Valid() && State() == Uninitialized
      ensures browser.None? && page.None? && !loggedIn && log == []
    {
      browser, page, loggedIn := None, None, false;
      log := [];
    }

    /** `initWhatsApp()`: nothing when already logged in; otherwise launch, open a page, load
        the client, wait for the two markers, and only then record the login. A call that
        throws leaves `loggedIn` false, so the next call starts over from the launch. */
    method InitWhatsApp(login: LoginScript) returns (r: Result<(), string>)
      requires Valid()
      modifies this
      ensures Valid()
      ensures old(State()) == Ready ==>
        r.Ok? && browser == old(browser) && page == old(page) && loggedIn && log == old(log)
      ensures old(State()) != Ready ==> log == old(log) + Attempted(login)
      ensures old(State()) != Ready ==> (r.Ok? <==> !LoginFails(login))
      ensures old(State()) != Ready && r.Ok? ==>
        State() == Ready && browser == Some(login.browserId) && page == Some(login.pageId)
      ensures old(State()) != Ready && r.Err? ==>
        r.error == login.failure.value.error && !loggedIn && State() != Ready
      ensures old(State()) != Ready && r.Err? ==>
        browser == (if login.failure.value.step == 0 then old(browser) else Some(login.browserId)) &&
        page == (if login.failure.value.step <= 1 then old(page) else Some(login.pageId))
    {
      if browser.Some? && page.Some? && loggedIn {
        return Ok(());
      }
      var failed: Option<string>;

      log := log + [LaunchBrowser];
      failed := FailsAt(login, 0);
      if failed.Some? { return Err(failed.value); }
      browser := Some(login.browserId);

      log := log + [NewPage];
      failed := FailsAt(login, 1);
      if failed.Some? { return Err(failed.value); }
      page := Some(login.pageId);

      log := log + [Goto(ClientUrl)];
      failed := FailsAt(login, 2);
      if failed.Some? { return Err(failed.value); }

      log := log + [WaitForSelector(LoginCanvas)];
      failed := FailsAt(login, 3);
      if failed.Some? { return Err(failed.value); }

      log := log + [WaitForSelector(ChatListMarker)];
      failed := FailsAt(login, 4);
      if failed.Some? { return Err(failed.value); }

      loggedIn := true;
      r := Ok(());
    }
  }

  /** A failed login is retried from scratch by the next call: the first call's failure
      leaves the session not ready, and a second call whose steps all succeed makes it ready
      with the second browser and page, after issuing every call again. */
  method LoginRetry(first: LoginScript, second: LoginScript) returns (s: WhatsAppSession, r1: Result<(), string>, r2: Result<(), string>)
    requires LoginFails(first) && !LoginFails(second)
    ensures r1.Err? && r2.Ok? && s.State() == Ready
    ensures s.browser == Some(second.browserId) && s.page == Some(second.pageId)
    ensures s.log == Attempted(first) + LoginSteps
  {
    s := new WhatsAppSession();
    r1 := s.InitWhatsApp(first);
    r2 := s.InitWhatsApp(second);
  }
}

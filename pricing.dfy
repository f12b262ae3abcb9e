/**
 * `get_pricing_info`: log in with an e-mailed one-time code fetched by a
 * bounded retry loop, open the paywall, parse the yearly and the monthly
 * tier lists, map every exception to an `{"error": ...}` result, and quit
 * the driver on every exit path.
 */
module Pricing {
  import opened Wrappers
  import opened Exceptions
  import opened Subscription
  import opened Text
  import opened Browser
  import Gmail

  /** What one run of the mail fetch sees at each call, numbered from 0. */
  type MailSchedule = nat -> Gmail.MailWorld

  /**
   * Call number `k` of the fetch. The loop calls it with no argument, so it
   * queries the default target address, not `email_address`.
   */
  function Attempt(mail: MailSchedule, k: nat): Option<string> {
    Gmail.GetVerificationCodeFromEmail(Gmail.DEFAULT_TARGET_EMAIL, mail(k))
  }

  /** The code the loop ends with when `retries` failed calls have happened so far. */
  function CodeFrom(mail: MailSchedule, maxRetries: int, retries: nat): Option<string>
    decreases maxRetries - retries
  {
    if retries >= maxRetries then None
    else
      match Attempt(mail, retries)
      case Some(code) => Some(code)
      case None => CodeFrom(mail, maxRetries, retries + 1)
  }

  function RetrievedCode(mail: MailSchedule, maxRetries: int): Option<string> {
    CodeFrom(mail, maxRetries, 0)
  }

  /**
   * The loop's result is the code of the first successful call among calls
   * `retries` .. `maxRetries - 1`, and there is none exactly when all of
   * those calls fail.
   */
  lemma {:induction false} CodeFromIsFirstSuccess(mail: MailSchedule, maxRetries: int, retries: nat)
    ensures CodeFrom(mail, maxRetries, retries).None? <==>
      forall j :: retries <= j < maxRetries ==> Attempt(mail, j).None?
    ensures CodeFrom(mail, maxRetries, retries).Some? ==>
      exists k :: retries <= k < maxRetries && CodeFrom(mail, maxRetries, retries) == Attempt(mail, k)
        && forall j :: retries <= j < k ==> Attempt(mail, j).None?
    decreases maxRetries - retries
  {
    if retries < maxRetries && Attempt(mail, retries).Some? {
      assert CodeFrom(mail, maxRetries, retries) == Attempt(mail, retries);
    } else if retries < maxRetries {
      CodeFromIsFirstSuccess(mail, maxRetries, retries + 1);
      var r := CodeFrom(mail, maxRetries, retries + 1);
      if r.Some? {
        var k :| retries + 1 <= k < maxRetries && r == Attempt(mail, k)
          && forall j :: retries + 1 <= j < k ==> Attempt(mail, j).None?;
        assert forall j :: retries <= j < k ==> Attempt(mail, j).None?;
      }
    }
  }

  /**
   * If call `k` is the first call whose fetch yields a code, and `k` is
   * within the budget, that code is the one the loop ends with.
   */
  lemma FirstSuccessIsUsed(mail: MailSchedule, maxRetries: int, k: nat)
    requires k < maxRetries && Attempt(mail, k).Some?
    requires forall j :: 0 <= j < k ==> Attempt(mail, j).None?
    ensures RetrievedCode(mail, maxRetries) == Attempt(mail, k)
  {
    CodeFromIsFirstSuccess(mail, maxRetries, 0);
    var r := RetrievedCode(mail, maxRetries);
    assert r.Some?;
    var k' :| 0 <= k' < maxRetries && r == Attempt(mail, k') && forall j :: 0 <= j < k' ==> Attempt(mail, j).None?;
    assert k' == k;
  }

  /**
   * Lines 191-204 up to the `raise`: call the fetch until it yields a code
   * or `maxRetries` calls have failed, sleeping after every failed call.
   * `calls` and `sleeps` count fetch calls and `time.sleep` calls.
   */
  method RetrieveCode(mail: MailSchedule, maxRetries: int)
    returns (verificationCode: Option<string>, ghost calls: nat, ghost sleeps: nat)
    ensures verificationCode == RetrievedCode(mail, maxRetries)
    ensures verificationCode.Some? ==>
      1 <= calls <= maxRetries && sleeps == calls - 1 && verificationCode == Attempt(mail, calls - 1)
      && AllFail(mail, calls - 1)
    ensures verificationCode.None? ==>
      calls == sleeps == (if maxRetries < 0 then 0 else maxRetries) && AllFail(mail, calls)
  {
    verificationCode := None;
    var retries: nat := 0;
    calls, sleeps := 0, 0;
    while verificationCode.None? && retries < maxRetries
      invariant retries <= (if maxRetries < 0 then 0 else maxRetries)
      invariant AllFail(mail, retries)
      invariant RetrievedCode(mail, maxRetries) == CodeFrom(mail, maxRetries, retries)
      invariant verificationCode.None? ==> calls == sleeps == retries
      invariant verificationCode.Some? ==>
        retries < maxRetries && calls == retries + 1 && sleeps == retries
        && verificationCode == Attempt(mail, retries) == CodeFrom(mail, maxRetries, retries)
      decreases maxRetries - retries + (if verificationCode.None? then 1 else 0)
    {
      verificationCode := Attempt(mail, retries);
      calls := calls + 1;
      CodeFromStep(mail, maxRetries, retries);
      if verificationCode.None? {
        AllFailExtend(mail, retries);
        retries := retries + 1;
        sleeps := sleeps + 1;
      }
    }
  }

  /** Calls `0` .. `n - 1` of the fetch all yield no code. */
  predicate AllFail(mail: MailSchedule, n: int) {
    forall j :: 0 <= j < n ==> Attempt(mail, j).None?
  }

  lemma AllFailExtend(mail: MailSchedule, n: nat)
    requires AllFail(mail, n) && Attempt(mail, n).None?
    ensures AllFail(mail, n + 1)
  {
  }

  /** One call of the loop: a code ends it, a failure leaves the rest of the budget. */
  lemma CodeFromStep(mail: MailSchedule, maxRetries: int, retries: nat)
    requires retries < maxRetries
    ensures Attempt(mail, retries).Some? ==> CodeFrom(mail, maxRetries, retries) == Attempt(mail, retries)
    ensures Attempt(mail, retries).None? ==> CodeFrom(mail, maxRetries, retries) == CodeFrom(mail, maxRetries, retries + 1)
  {
  }

  /** The keyword the source passes at lines 240 and 247. */
  const AS_WRITTEN_KEYWORD := "pricing_html"

  /** The success dictionary: title, features, and the yearly and monthly plans. */
  datatype PricingInfo = PricingInfo(subscriptionTitle: string, features: seq<string>, yearly: seq<Plan>, monthly: seq<Plan>)

  /** What `get_pricing_info` returns: the success dictionary or `{"error": ...}`. */
  datatype PricingResult = Success(info: PricingInfo) | ErrorResult(error: string)

  /**
   * Lines 177-215 run against `b`, appending to `log`: the first step that
   * raises ends the block with its exception; a failed code retrieval
   * raises `VerificationCodeRetrievalError` before the code field is used.
   */
  function LogInBlock(emailAddress: string, maxRetries: int, b: Browser, mail: MailSchedule, log: seq<Action>)
    : (Option<Exc>, seq<Action>)
  {
    if FailureOf(b, Navigate).Some? then (FailureOf(b, Navigate), log) else
    var log := log + [Did(Navigate)];
    if FailureOf(b, EmailInput).Some? then (FailureOf(b, EmailInput), log) else
    var log := log + [Typed(EmailInput, emailAddress)];
    if FailureOf(b, GoButton).Some? then (FailureOf(b, GoButton), log) else
    var log := log + [Did(GoButton)];
    var code := RetrievedCode(mail, maxRetries);
    if code.None? then (Some(VerificationCodeRetrievalError(RETRIEVAL_ERROR_MESSAGE)), log) else
    if FailureOf(b, CodeInput).Some? then (FailureOf(b, CodeInput), log) else
    var log := log + [Typed(CodeInput, code.value)];
    if FailureOf(b, LogInButton).Some? then (FailureOf(b, LogInButton), log) else
    (None, log + [Did(LogInButton)])
  }

  /**
   * Lines 224-258 run against `b`, appending to `log`: open the paywall,
   * read the title and features, parse the yearly tiers, switch to monthly,
   * parse the monthly tiers; the parser is called with `keyword`.
   */
  function PaywallBlock(keyword: string, b: Browser, log: seq<Action>): (Outcome<PricingInfo>, seq<Action>) {
    if FailureOf(b, SubscribeButton).Some? then (Raised(FailureOf(b, SubscribeButton).value), log) else
    var log := log + [Did(SubscribeButton)];
    if FailureOf(b, PricingPopup).Some? then (Raised(FailureOf(b, PricingPopup).value), log) else
    var log := log + [Did(PricingPopup)];
    var yearly := KeywordCall(keyword, b.yearly);
    if yearly.Raised? then (Raised(yearly.exc), log) else
    if FailureOf(b, MonthlyToggle).Some? then (Raised(FailureOf(b, MonthlyToggle).value), log) else
    var log := log + [Did(MonthlyToggle)];
    if FailureOf(b, MonthlyContainer).Some? then (Raised(FailureOf(b, MonthlyContainer).value), log) else
    var log := log + [Did(MonthlyContainer)];
    var monthly := KeywordCall(keyword, b.monthly);
    if monthly.Raised? then (Raised(monthly.exc), log) else
    (Returned(PricingInfo(SubscriptionTitle(b.yearly), Features(b.yearly), yearly.value, monthly.value)), log)
  }

  /**
   * The `try` block of `get_pricing_info` run against `b`, calling the parser
   * with `keyword`: how it ends, and the session log it leaves.
   */
  function TryBlock(keyword: string, emailAddress: string, maxRetries: int, b: Browser, mail: MailSchedule)
    : (Outcome<PricingInfo>, seq<Action>)
  {
    var (raised, log) := LogInBlock(emailAddress, maxRetries, b, mail, []);
    if raised.Some? then (Raised(raised.value), log) else PaywallBlock(keyword, b, log)
  }

  /** The `except` clauses: a returned dictionary passes, an exception becomes its message. */
  function Handled(outcome: Outcome<PricingInfo>): PricingResult {
    match outcome
    case Returned(info) => Success(info)
    case Raised(e) => ErrorResult(HandlerMessage(e))
  }

  /** The whole run: the handled result and the log ending with the `finally` quit. */
  function Run(keyword: string, emailAddress: string, maxRetries: int, b: Browser, mail: MailSchedule)
    : (PricingResult, seq<Action>)
  {
    var (outcome, log) := TryBlock(keyword, emailAddress, maxRetries, b, mail);
    (Handled(outcome), log + [Action.Quit])
  }

  /** Lines 177-215, driving `driver`. */
  method LogIn(driver: Driver, emailAddress: string, maxRetries: int, mail: MailSchedule)
    returns (raised: Option<Exc>)
    requires driver.open
    modifies driver`log
    ensures (raised, driver.log) == LogInBlock(emailAddress, maxRetries, driver.browser, mail, old(driver.log))
  {
    raised := driver.Perform(Navigate);
    if raised.Some? { return; }
    raised := driver.SendKeys(EmailInput, emailAddress);
    if raised.Some? { return; }
    raised := driver.Perform(GoButton);
    if raised.Some? { return; }

    var verificationCode;
    ghost var calls, sleeps;
    verificationCode, calls, sleeps := RetrieveCode(mail, maxRetries);
    if verificationCode.None? {
      return Some(VerificationCodeRetrievalError(RETRIEVAL_ERROR_MESSAGE));
    }

    raised := driver.SendKeys(CodeInput, verificationCode.value);
    if raised.Some? { return; }
    raised := driver.Perform(LogInButton);
  }

  /** Lines 224-258, driving `driver`. */
  method ReadPaywall(driver: Driver, keyword: string) returns (outcome: Outcome<PricingInfo>)
    requires driver.open
    modifies driver`log
    ensures (outcome, driver.log) == PaywallBlock(keyword, driver.browser, old(driver.log))
  {
    var raised := driver.Perform(SubscribeButton);
    if raised.Some? { return Raised(raised.value); }

    var soup;
    raised, soup := driver.Capture(Yearly);
    if raised.Some? { return Raised(raised.value); }
    var subscriptionTitle := SubscriptionTitle(soup);
    var features := Features(soup);
    var yearlyPlans := CallWithKeyword(keyword, soup);
    if yearlyPlans.Raised? { return Raised(yearlyPlans.exc); }

    raised := driver.Perform(MonthlyToggle);
    if raised.Some? { return Raised(raised.value); }
    raised, soup := driver.Capture(Monthly);
    if raised.Some? { return Raised(raised.value); }
    var monthlyPlans := CallWithKeyword(keyword, soup);
    if monthlyPlans.Raised? { return Raised(monthlyPlans.exc); }

    return Returned(PricingInfo(subscriptionTitle, features, yearlyPlans.value, monthlyPlans.value));
  }

  /** The statements of the `try` block, driving `driver`. */
  method TryBody(driver: Driver, keyword: string, emailAddress: string, maxRetries: int, mail: MailSchedule)
    returns (outcome: Outcome<PricingInfo>)
    requires driver.open && driver.log == []
    modifies driver`log
    ensures (outcome, driver.log) == TryBlock(keyword, emailAddress, maxRetries, driver.browser, mail)
  {
    var raised := LogIn(driver, emailAddress, maxRetries, mail);
    if raised.Some? {
      return Raised(raised.value);
    }
    outcome := ReadPaywall(driver, keyword);
  }

  /**
   * `try` / `except` / `finally driver.quit()` around the body, on a fresh
   * driver; `driver` is the session, returned for the specification only.
   */
  method PricingWorkflow(keyword: string, emailAddress: string, maxRetries: int, browser: Browser, mail: MailSchedule)
    returns (result: PricingResult, ghost driver: Driver)
    ensures fresh(driver) && driver.browser == browser && !driver.open
    ensures (result, driver.log) == Run(keyword, emailAddress, maxRetries, browser, mail)
  {
    var session := new Driver(browser);
    var outcome := TryBody(session, keyword, emailAddress, maxRetries, mail);
    match outcome {
      case Returned(info) =>
        result := Success(info);
      case Raised(TimeoutException) =>
        result := ErrorResult(TIMEOUT_MESSAGE);
      case Raised(NoSuchElementException) =>
        result := ErrorResult(NOT_FOUND_MESSAGE);
      case Raised(e) =>
        result := ErrorResult(HandlerMessage(e));
    }
    session.Quit();
    driver := session;
  }

  /** `get_pricing_info(email_address, max_retries=10)` as written. */
  method GetPricingInfo(emailAddress: string, browser: Browser, mail: MailSchedule, maxRetries: int := 10)
    returns (result: PricingResult, ghost driver: Driver)
    ensures fresh(driver) && !driver.open
    ensures (result, driver.log) == Run(AS_WRITTEN_KEYWORD, emailAddress, maxRetries, browser, mail)
  {
    result, driver := PricingWorkflow(AS_WRITTEN_KEYWORD, emailAddress, maxRetries, browser, mail);
  }

  /** The same workflow with the parser called by its real parameter name. */
  method GetPricingInfoCorrected(emailAddress: string, browser: Browser, mail: MailSchedule, maxRetries: int := 10)
    returns (result: PricingResult, ghost driver: Driver)
    ensures fresh(driver) && !driver.open
    ensures (result, driver.log) == Run(PARAMETER_NAME, emailAddress, maxRetries, browser, mail)
  {
    result, driver := PricingWorkflow(PARAMETER_NAME, emailAddress, maxRetries, browser, mail);
  }

  /** No step before the paywall raises and a code is retrieved. */
  predicate LoginSucceeds(maxRetries: int, b: Browser, mail: MailSchedule) {
    && FailureOf(b, Navigate).None? && FailureOf(b, EmailInput).None? && FailureOf(b, GoButton).None?
    && RetrievedCode(mail, maxRetries).Some?
    && FailureOf(b, CodeInput).None? && FailureOf(b, LogInButton).None?
  }

  /** The actions of a run that fails nowhere, in order, before the quit. */
  function PlannedActions(emailAddress: string, code: Option<string>): seq<Action> {
    [Did(Navigate), Typed(EmailInput, emailAddress), Did(GoButton)]
    + match code
      case None => []
      case Some(c) =>
        [Typed(CodeInput, c), Did(LogInButton), Did(SubscribeButton), Did(PricingPopup),
         Did(MonthlyToggle), Did(MonthlyContainer)]
  }

  lemma LogInBlockFollowsPlan(emailAddress: string, maxRetries: int, b: Browser, mail: MailSchedule)
    ensures var (raised, log) := LogInBlock(emailAddress, maxRetries, b, mail, []);
      var plan := PlannedActions(emailAddress, RetrievedCode(mail, maxRetries));
      && log <= plan
      && (raised.None? ==> RetrievedCode(mail, maxRetries).Some? && log == plan[..5])
  {
    var plan := PlannedActions(emailAddress, RetrievedCode(mail, maxRetries));
    var (raised, log) := LogInBlock(emailAddress, maxRetries, b, mail, []);
    if RetrievedCode(mail, maxRetries).Some? {
      assert |plan| == 9;
    }
  }

  lemma PaywallBlockFollowsPlan(keyword: string, b: Browser, log0: seq<Action>, emailAddress: string, code: string)
    requires log0 == PlannedActions(emailAddress, Some(code))[..5]
    ensures PaywallBlock(keyword, b, log0).1 <= PlannedActions(emailAddress, Some(code))
  {
  }

  /**
   * The session's actions are always a prefix of the planned order: the
   * e-mail address is typed before the button is pressed, a code is typed
   * only once it has been retrieved, the monthly container is read only
   * after the monthly toggle was clicked.
   */
  lemma ActionsFollowPlan(keyword: string, emailAddress: string, maxRetries: int, b: Browser, mail: MailSchedule)
    ensures TryBlock(keyword, emailAddress, maxRetries, b, mail).1 <= PlannedActions(emailAddress, RetrievedCode(mail, maxRetries))
  {
    LogInBlockFollowsPlan(emailAddress, maxRetries, b, mail);
    var (raised, log) := LogInBlock(emailAddress, maxRetries, b, mail, []);
    if raised.None? {
      PaywallBlockFollowsPlan(keyword, b, log, emailAddress, RetrievedCode(mail, maxRetries).value);
    }
  }

  /**
   * `driver.quit()` runs exactly once, as the last action of every run,
   * whichever way the run ends.
   */
  lemma QuitExactlyOnceAtEnd(keyword: string, emailAddress: string, maxRetries: int, b: Browser, mail: MailSchedule)
    ensures var log := Run(keyword, emailAddress, maxRetries, b, mail).1;
      |log| > 0 && log[|log| - 1] == Action.Quit
      && forall i :: 0 <= i < |log| - 1 ==> !log[i].Quit?
  {
    var body := TryBlock(keyword, emailAddress, maxRetries, b, mail).1;
    var plan := PlannedActions(emailAddress, RetrievedCode(mail, maxRetries));
    ActionsFollowPlan(keyword, emailAddress, maxRetries, b, mail);
    var log := body + [Action.Quit];
    forall i | 0 <= i < |log| - 1 ensures !log[i].Quit? {
      assert log[i] == body[i] == plan[i];
    }
  }

  /**
   * With the keyword as written no run returns the pricing dictionary, and
   * every run that gets as far as line 240 reports the `TypeError`.
   */
  lemma AsWrittenNeverSucceeds(emailAddress: string, maxRetries: int, b: Browser, mail: MailSchedule)
    ensures Run(AS_WRITTEN_KEYWORD, emailAddress, maxRetries, b, mail).0.ErrorResult?
    ensures LoginSucceeds(maxRetries, b, mail)
            && FailureOf(b, SubscribeButton).None? && FailureOf(b, PricingPopup).None?
            ==> Run(AS_WRITTEN_KEYWORD, emailAddress, maxRetries, b, mail).0
                == ErrorResult(UnexpectedKeywordMessage(AS_WRITTEN_KEYWORD))
  {
  }

  /**
   * When every call of the fetch fails, the run reports the retrieval
   * error's default message after typing the e-mail address and pressing
   * the button only: no code is entered.
   */
  lemma RetrievalFailureReported(keyword: string, emailAddress: string, maxRetries: int, b: Browser, mail: MailSchedule)
    requires FailureOf(b, Navigate).None? && FailureOf(b, EmailInput).None? && FailureOf(b, GoButton).None?
    requires forall j :: 0 <= j < maxRetries ==> Attempt(mail, j).None?
    ensures Run(keyword, emailAddress, maxRetries, b, mail)
         == (ErrorResult(RETRIEVAL_ERROR_MESSAGE), [Did(Navigate), Typed(EmailInput, emailAddress), Did(GoButton), Action.Quit])
  {
    CodeFromIsFirstSuccess(mail, maxRetries, 0);
    assert [] + [Did(Navigate)] + [Typed(EmailInput, emailAddress)] + [Did(GoButton)] + [Action.Quit]
        == [Did(Navigate), Typed(EmailInput, emailAddress), Did(GoButton), Action.Quit];
  }

  /**
   * At most one code is entered, and an entered code is the one the retry
   * loop obtained from the default mailbox.
   */
  lemma CodeEnteredOnce(keyword: string, emailAddress: string, maxRetries: int, b: Browser, mail: MailSchedule)
    ensures var log := Run(keyword, emailAddress, maxRetries, b, mail).1;
      forall i :: 0 <= i < |log| && log[i].Typed? && log[i].step == CodeInput ==>
        RetrievedCode(mail, maxRetries) == Some(log[i].keys)
        && forall j :: 0 <= j < |log| && j != i ==> !(log[j].Typed? && log[j].step == CodeInput)
  {
    var code := RetrievedCode(mail, maxRetries);
    var body := TryBlock(keyword, emailAddress, maxRetries, b, mail).1;
    ActionsFollowPlan(keyword, emailAddress, maxRetries, b, mail);
    PlanEntersCodeOnce(body + [Action.Quit], emailAddress, code);
  }

  lemma PlanEntersCodeOnce(log: seq<Action>, emailAddress: string, code: Option<string>)
    requires |log| > 0 && log[..|log| - 1] <= PlannedActions(emailAddress, code) && log[|log| - 1].Quit?
    ensures forall i :: 0 <= i < |log| && log[i].Typed? && log[i].step == CodeInput ==>
        code == Some(log[i].keys)
        && forall j :: 0 <= j < |log| && j != i ==> !(log[j].Typed? && log[j].step == CodeInput)
  {
    var plan := PlannedActions(emailAddress, code);
    forall i | 0 <= i < |log| - 1 ensures log[i] == plan[i] {
      assert log[i] == log[..|log| - 1][i];
    }
  }

  /** A paywall that never renders ends the run with the timeout message and no plans. */
  lemma PaywallTimeoutReported(keyword: string, emailAddress: string, maxRetries: int, b: Browser, mail: MailSchedule)
    requires LoginSucceeds(maxRetries, b, mail) && FailureOf(b, SubscribeButton).None?
    requires FailureOf(b, PricingPopup) == Some(TimeoutException)
    ensures Run(keyword, emailAddress, maxRetries, b, mail).0 == ErrorResult(TIMEOUT_MESSAGE)
  {
  }

  /**
   * With the parser called by its parameter name, a run with no failing
   * step, a retrieved code and complete tiers returns the title, the
   * features, the plans of the yearly capture and the plans of the monthly
   * capture, each list parsed from its own capture, after the full sequence
   * of actions.
   */
  lemma CorrectedRunSucceeds(emailAddress: string, maxRetries: int, b: Browser, mail: MailSchedule)
    requires b.failures == map[] && RetrievedCode(mail, maxRetries).Some?
    requires forall i :: 0 <= i < |b.yearly.tiers| ==> Complete(b.yearly.tiers[i])
    requires forall i :: 0 <= i < |b.monthly.tiers| ==> Complete(b.monthly.tiers[i])
    ensures var (result, log) := Run(PARAMETER_NAME, emailAddress, maxRetries, b, mail);
      && result.Success?
      && result.info.subscriptionTitle == SubscriptionTitle(b.yearly)
      && result.info.features == Features(b.yearly)
      && |result.info.yearly| == |b.yearly.tiers|
      && (forall i :: 0 <= i < |b.yearly.tiers| ==> result.info.yearly[i] == PlanOf(b.yearly.tiers[i]))
      && |result.info.monthly| == |b.monthly.tiers|
      && (forall i :: 0 <= i < |b.monthly.tiers| ==> result.info.monthly[i] == PlanOf(b.monthly.tiers[i]))
      && log == [Did(Navigate), Typed(EmailInput, emailAddress), Did(GoButton),
                 Typed(CodeInput, RetrievedCode(mail, maxRetries).value), Did(LogInButton),
                 Did(SubscribeButton), Did(PricingPopup), Did(MonthlyToggle), Did(MonthlyContainer), Action.Quit]
  {
    var code := RetrievedCode(mail, maxRetries).value;
    var log1 := [Did(Navigate), Typed(EmailInput, emailAddress), Did(GoButton), Typed(CodeInput, code), Did(LogInButton)];
    LogInBlockSucceeds(emailAddress, maxRetries, b, mail);
    assert LogInBlock(emailAddress, maxRetries, b, mail, []) == (None, log1);
    PaywallBlockSucceeds(b, log1);
    var (outcome, log2) := PaywallBlock(PARAMETER_NAME, b, log1);
    assert TryBlock(PARAMETER_NAME, emailAddress, maxRetries, b, mail) == (outcome, log2);
    assert log2 + [Action.Quit]
        == [Did(Navigate), Typed(EmailInput, emailAddress), Did(GoButton), Typed(CodeInput, code), Did(LogInButton),
            Did(SubscribeButton), Did(PricingPopup), Did(MonthlyToggle), Did(MonthlyContainer), Action.Quit];
  }

  /**
   * In the same run, the title is "Unavailable" when the paywall has no
   * title element and the element's stripped text otherwise, and every
   * feature item contributes its stripped text, in order.
   */
  lemma CorrectedRunReadsTitleAndFeatures(emailAddress: string, maxRetries: int, b: Browser, mail: MailSchedule)
    requires b.failures == map[] && RetrievedCode(mail, maxRetries).Some?
    requires forall i :: 0 <= i < |b.yearly.tiers| ==> Complete(b.yearly.tiers[i])
    requires forall i :: 0 <= i < |b.monthly.tiers| ==> Complete(b.monthly.tiers[i])
    ensures var result := Run(PARAMETER_NAME, emailAddress, maxRetries, b, mail).0;
      && result.Success?
      && (b.yearly.title.None? ==> result.info.subscriptionTitle == UNAVAILABLE)
      && (b.yearly.title.Some? ==> IsStripOf(result.info.subscriptionTitle, b.yearly.title.value))
      && |result.info.features| == |b.yearly.features|
      && forall i :: 0 <= i < |b.yearly.features| ==> IsStripOf(result.info.features[i], b.yearly.features[i])
  {
    CorrectedRunSucceeds(emailAddress, maxRetries, b, mail);
    TitleOrUnavailable(b.yearly);
    FeaturesStripped(b.yearly);
  }

  /** With no failing step and a retrieved code, the login block completes its five actions. */
  lemma LogInBlockSucceeds(emailAddress: string, maxRetries: int, b: Browser, mail: MailSchedule)
    requires LoginSucceeds(maxRetries, b, mail)
    ensures LogInBlock(emailAddress, maxRetries, b, mail, [])
         == (None, [Did(Navigate), Typed(EmailInput, emailAddress), Did(GoButton),
                    Typed(CodeInput, RetrievedCode(mail, maxRetries).value), Did(LogInButton)])
  {
    var code := RetrievedCode(mail, maxRetries).value;
    assert [] + [Did(Navigate)] + [Typed(EmailInput, emailAddress)] + [Did(GoButton)]
        + [Typed(CodeInput, code)] + [Did(LogInButton)]
        == [Did(Navigate), Typed(EmailInput, emailAddress), Did(GoButton), Typed(CodeInput, code), Did(LogInButton)];
  }

  /** With no failing step and complete tiers, the paywall block returns both parses. */
  lemma PaywallBlockSucceeds(b: Browser, log: seq<Action>)
    requires FailureOf(b, SubscribeButton).None? && FailureOf(b, PricingPopup).None?
    requires FailureOf(b, MonthlyToggle).None? && FailureOf(b, MonthlyContainer).None?
    requires forall i :: 0 <= i < |b.yearly.tiers| ==> Complete(b.yearly.tiers[i])
    requires forall i :: 0 <= i < |b.monthly.tiers| ==> Complete(b.monthly.tiers[i])
    ensures ParsePlans(b.yearly.tiers).Returned? && ParsePlans(b.monthly.tiers).Returned?
    ensures PaywallBlock(PARAMETER_NAME, b, log)
         == (Returned(PricingInfo(SubscriptionTitle(b.yearly), Features(b.yearly),
                                  ParsePlans(b.yearly.tiers).value, ParsePlans(b.monthly.tiers).value)),
             log + [Did(SubscribeButton), Did(PricingPopup), Did(MonthlyToggle), Did(MonthlyContainer)])
  {
    var yearly := KeywordCall(PARAMETER_NAME, b.yearly);
    var monthly := KeywordCall(PARAMETER_NAME, b.monthly);
    assert yearly == ParsePlans(b.yearly.tiers) && yearly.Returned?;
    assert monthly == ParsePlans(b.monthly.tiers) && monthly.Returned?;
    AppendEach(log, [Did(SubscribeButton), Did(PricingPopup), Did(MonthlyToggle), Did(MonthlyContainer)]);
  }

  lemma AppendEach(log: seq<Action>, more: seq<Action>)
    requires |more| == 4
    ensures log + [more[0]] + [more[1]] + [more[2]] + [more[3]] == log + more
  {
  }

  /**
   * With the parser called by its parameter name, an incomplete monthly
   * tier makes the whole run an error: the yearly plans already parsed are
   * not returned on their own.
   */
  lemma CorrectedMonthlyFailureDiscardsYearly(emailAddress: string, maxRetries: int, b: Browser, mail: MailSchedule, i: nat)
    requires b.failures == map[] && RetrievedCode(mail, maxRetries).Some?
    requires forall k :: 0 <= k < |b.yearly.tiers| ==> Complete(b.yearly.tiers[k])
    requires i < |b.monthly.tiers| && !Complete(b.monthly.tiers[i])
    ensures Run(PARAMETER_NAME, emailAddress, maxRetries, b, mail).0 == ErrorResult(NONE_TEXT_MESSAGE)
  {
  }
}

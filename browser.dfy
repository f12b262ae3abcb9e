/**
 * The browser session of `get_pricing_info`. Every Selenium interaction
 * (a bounded wait followed by a click, a key entry or a read) is one
 * `Step`; the `Browser` says which steps raise which exception and what the
 * two captures of the tier container hold. The `Driver` class is the
 * session: it performs steps in order, keeps a ghost log of what was done,
 * and is closed by `Quit`.
 */
module Browser {
  import opened Wrappers
  import opened Exceptions
  import opened Subscription

  /** The UI interactions of `get_pricing_info`, in the order it performs them. */
  datatype Step =
    | Navigate          // driver.get("https://www.poe.com")
    | EmailInput        // wait for the e-mail field, send_keys(email_address)
    | GoButton          // wait for the primary button, click
    | CodeInput         // wait for the code field, send_keys(verification_code)
    | LogInButton       // wait for the primary button, click
    | SubscribeButton   // wait for "Subscribe", click
    | PricingPopup      // wait for the tier container, read its outerHTML
    | MonthlyToggle     // find the "monthly" label, click
    | MonthlyContainer  // find the tier container again, read its outerHTML

  /** The two captures of the tier container. */
  datatype Cycle = Yearly | Monthly

  function CaptureStep(cycle: Cycle): Step {
    match cycle
    case Yearly => PricingPopup
    case Monthly => MonthlyContainer
  }

  /** What the session does when driven: which steps raise, and what the captures show. */
  datatype Browser = Browser(failures: map<Step, Exc>, yearly: Snapshot, monthly: Snapshot)

  function FailureOf(b: Browser, step: Step): Option<Exc> {
    if step in b.failures then Some(b.failures[step]) else None
  }

  function SnapshotOf(b: Browser, cycle: Cycle): Snapshot {
    match cycle
    case Yearly => b.yearly
    case Monthly => b.monthly
  }

  /** What the session log records: a completed step, keys sent to a field, the quit. */
  datatype Action = Did(step: Step) | Typed(step: Step, keys: string) | Quit

  class Driver {
    const browser: Browser
    var open: bool
    ghost var log: seq<Action>

    constructor (browser: Browser)
      ensures this.browser == browser && open && log == []
    {
      this.browser := browser;
      open := true;
      log := [];
    }

    /** A wait-and-click (or wait-and-read) step: it raises, or it is logged as done. */
    method Perform(step: Step) returns (raised: Option<Exc>)
      requires open
      modifies this`log
      ensures raised == FailureOf(browser, step)
      ensures log == if raised.None? then old(log) + [Did(step)] else old(log)
    {
      raised := FailureOf(browser, step);
      if raised.None? {
        log := log + [Did(step)];
      }
    }

    /** A wait-and-`send_keys` step: it raises, or the keys are logged as sent. */
    method SendKeys(step: Step, keys: string) returns (raised: Option<Exc>)
      requires open
      modifies this`log
      ensures raised == FailureOf(browser, step)
      ensures log == if raised.None? then old(log) + [Typed(step, keys)] else old(log)
    {
      raised := FailureOf(browser, step);
      if raised.None? {
        log := log + [Typed(step, keys)];
      }
    }

    /** Locates the tier container and returns the snapshot of its markup. */
    method Capture(cycle: Cycle) returns (raised: Option<Exc>, snapshot: Snapshot)
      requires open
      modifies this`log
      ensures raised == FailureOf(browser, CaptureStep(cycle))
      ensures snapshot == SnapshotOf(browser, cycle)
      ensures log == if raised.None? then old(log) + [Did(CaptureStep(cycle))] else old(log)
    {
      raised := Perform(CaptureStep(cycle));
      snapshot := SnapshotOf(browser, cycle);
    }

    /** `driver.quit()`. */
    method Quit()
      modifies this
      ensures !open && log == old(log) + [Action.Quit]
    {
      open := false;
      log := log + [Action.Quit];
    }
  }
}

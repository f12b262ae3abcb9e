/**
 * `parse_subscription_details` and the title/feature extraction of
 * `get_pricing_info`, over an abstract snapshot of the tier container
 * instead of a parsed HTML tree.
 */
module Subscription {
  import opened Wrappers
  import opened Text
  import opened Exceptions

  /** One `tierOption` element: the text of its title and price elements, where present. */
  datatype TierElement = TierElement(title: Option<string>, price: Option<string>)

  /**
   * The tier container's markup as the parser sees it: the text of the
   * paywall title element (if any), the texts of the feature items and the
   * tier-option elements, in document order.
   */
  datatype Snapshot = Snapshot(title: Option<string>, features: seq<string>, tiers: seq<TierElement>)

  datatype Plan = Plan(planName: string, price: string)

  /** `str(e)` for `.text` read on the `None` that `find` returns for a missing element. */
  const NONE_TEXT_MESSAGE := "'NoneType' object has no attribute 'text'"

  /** The name of the parameter of `parse_subscription_details`. */
  const PARAMETER_NAME := "pricing_soup"

  const UNAVAILABLE := "Unavailable"

  predicate Complete(tier: TierElement) {
    tier.title.Some? && tier.price.Some?
  }

  function PlanOf(tier: TierElement): Plan
    requires Complete(tier)
  {
    Plan(Strip(tier.title.value), Strip(tier.price.value))
  }

  /**
   * What parsing the tiers gives: one stripped plan per tier, in order,
   * when every tier has both texts; otherwise the `AttributeError`, and no
   * partial list.
   */
  function ParsePlans(tiers: seq<TierElement>): (r: Outcome<seq<Plan>>)
    ensures r.Returned? <==> forall i :: 0 <= i < |tiers| ==> Complete(tiers[i])
    ensures r.Returned? ==> |r.value| == |tiers|
    ensures r.Returned? ==> forall i :: 0 <= i < |tiers| ==> r.value[i] == PlanOf(tiers[i])
    ensures r.Raised? ==> r.exc == AttributeError(NONE_TEXT_MESSAGE)
  {
    if tiers == [] then Returned([])
    else if !Complete(tiers[0]) then Raised(AttributeError(NONE_TEXT_MESSAGE))
    else
      match ParsePlans(tiers[1..])
      case Raised(e) => Raised(e)
      case Returned(rest) => Returned([PlanOf(tiers[0])] + rest)
  }

  /** `parse_subscription_details(pricing_soup)`: the loop appending to `plans`. */
  method ParseSubscriptionDetails(pricingSoup: Snapshot) returns (r: Outcome<seq<Plan>>)
    ensures r == ParsePlans(pricingSoup.tiers)
  {
    var tiers := pricingSoup.tiers;
    var plans: seq<Plan> := [];
    for i := 0 to |tiers|
      invariant |plans| == i
      invariant forall k :: 0 <= k < i ==> Complete(tiers[k]) && plans[k] == PlanOf(tiers[k])
    {
      var plan := tiers[i];
      if plan.title.None? {
        IncompleteRaises(tiers, i);
        return Raised(AttributeError(NONE_TEXT_MESSAGE));
      }
      var planName := Strip(plan.title.value);
      if plan.price.None? {
        IncompleteRaises(tiers, i);
        return Raised(AttributeError(NONE_TEXT_MESSAGE));
      }
      var price := Strip(plan.price.value);
      plans := plans + [Plan(planName, price)];
    }
    CompleteParses(tiers, plans);
    return Returned(plans);
  }

  lemma IncompleteRaises(tiers: seq<TierElement>, i: nat)
    requires i < |tiers| && !Complete(tiers[i])
    ensures ParsePlans(tiers) == Raised(AttributeError(NONE_TEXT_MESSAGE))
  {
    var r := ParsePlans(tiers);
    assert !r.Returned?;
  }

  lemma CompleteParses(tiers: seq<TierElement>, plans: seq<Plan>)
    requires |plans| == |tiers|
    requires forall k :: 0 <= k < |tiers| ==> Complete(tiers[k]) && plans[k] == PlanOf(tiers[k])
    ensures ParsePlans(tiers) == Returned(plans)
  {
    var r := ParsePlans(tiers);
    assert r.Returned?;
    assert r.value == plans;
  }

  /** `str(e)` of the `TypeError` for a call with an unknown keyword argument. */
  function UnexpectedKeywordMessage(keyword: string): string {
    "parse_subscription_details() got an unexpected keyword argument '" + keyword + "'"
  }

  /** What `parse_subscription_details(<keyword>=soup)` does, as a value. */
  function KeywordCall(keyword: string, soup: Snapshot): Outcome<seq<Plan>> {
    if keyword == PARAMETER_NAME then ParsePlans(soup.tiers)
    else Raised(TypeError(UnexpectedKeywordMessage(keyword)))
  }

  /**
   * `parse_subscription_details(<keyword>=soup)`: Python binds the keyword
   * to the parameter only when the names agree; any other name raises
   * `TypeError` before the body runs.
   */
  method CallWithKeyword(keyword: string, soup: Snapshot) returns (r: Outcome<seq<Plan>>)
    ensures keyword == PARAMETER_NAME ==> r == ParsePlans(soup.tiers)
    ensures keyword != PARAMETER_NAME ==> r == Raised(TypeError(UnexpectedKeywordMessage(keyword)))
    ensures r == KeywordCall(keyword, soup)
  {
    if keyword != PARAMETER_NAME {
      return Raised(TypeError(UnexpectedKeywordMessage(keyword)));
    }
    r := ParseSubscriptionDetails(soup);
  }

  /** The paywall title, stripped, or "Unavailable" when the element is absent. */
  function SubscriptionTitle(soup: Snapshot): string {
    match soup.title
    case Some(text) => Strip(text)
    case None => UNAVAILABLE
  }

  /** The feature texts, each stripped, in document order. */
  function Features(soup: Snapshot): seq<string> {
    seq(|soup.features|, i requires 0 <= i < |soup.features| => Strip(soup.features[i]))
  }

  /**
   * The title is "Unavailable" when the paywall has no title element, and
   * otherwise the element's text with the surrounding whitespace dropped.
   */
  lemma TitleOrUnavailable(soup: Snapshot)
    ensures soup.title.None? ==> SubscriptionTitle(soup) == UNAVAILABLE
    ensures soup.title.Some? ==> IsStripOf(SubscriptionTitle(soup), soup.title.value)
  {
    if soup.title.Some? {
      StripCharacterised(SubscriptionTitle(soup), soup.title.value);
    }
  }

  /**
   * One feature text per feature item, in document order: each is its
   * item's text with the surrounding whitespace dropped.
   */
  lemma FeaturesStripped(soup: Snapshot)
    ensures |Features(soup)| == |soup.features|
    ensures forall i :: 0 <= i < |soup.features| ==> IsStripOf(Features(soup)[i], soup.features[i])
  {
    var r := Features(soup);
    forall i | 0 <= i < |soup.features| ensures IsStripOf(r[i], soup.features[i]) {
      StripCharacterised(r[i], soup.features[i]);
    }
  }

  /**
   * Three complete tiers and one without a price: the whole parse raises,
   * rather than returning the three complete plans.
   */
  lemma IncompleteTierAbortsParse(a: TierElement, b: TierElement, c: TierElement, name: string)
    requires Complete(a) && Complete(b) && Complete(c)
    ensures ParsePlans([a, b, TierElement(Some(name), None), c]) == Raised(AttributeError(NONE_TEXT_MESSAGE))
  {
    var tiers := [a, b, TierElement(Some(name), None), c];
    assert !Complete(tiers[2]);
  }
}

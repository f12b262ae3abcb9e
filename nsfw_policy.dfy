/**
 * `get_nsfw_policy`: every policy document is fetched, its text lower-cased
 * and classified by the first keyword category with a keyword occurring in
 * it; a request error yields an "Error" entry for that document instead.
 */
module NsfwPolicy {
  import opened Text

  datatype Category = Category(name: string, keywords: seq<string>)

  /** The keyword categories, in declaration order. */
  const CATEGORIES: seq<Category> := [
    Category("Advertised", ["explicit content", "NSFW content", "adult content", "nudity"]),
    Category("Allowed but not advertised", ["content moderation", "user responsibility", "user-generated content"]),
    Category("Prohibited", ["prohibited content", "restricted content", "no adult content", "banned"])
  ]

  const UNKNOWN := "Unknown"
  const ERROR := "Error"
  const FOUND_SUMMARY := "NSFW policy found"
  const NOT_MENTIONED_SUMMARY := "NSFW policy not mentioned"
  const FAILURE_PREFIX := "Failed to retrieve or process the document: "

  /** `policy_urls`, in insertion order: (document name, URL). */
  const POLICY_URLS: seq<(string, string)> := [
    ("privacy_policy", "https://poe.com/privacy"),
    ("terms_of_service", "https://poe.com/tos")
  ]

  /** What fetching one URL gave: the document text, or a request error's message. */
  datatype FetchResult = Fetched(text: string) | RequestFailed(message: string)

  datatype PolicyEntry = PolicyEntry(url: string, nsfwPolicyCategory: string, summary: string)

  /** One key of the returned `policies` dictionary with its value. */
  datatype PolicyRecord = PolicyRecord(name: string, entry: PolicyEntry)

  /** `any(keyword in text for keyword in keywords)`. */
  predicate AnyKeyword(keywords: seq<string>, text: string) {
    exists k :: 0 <= k < |keywords| && Contains(text, keywords[k])
  }

  /** Index of the first category at or after `from` with a keyword in `text`. */
  function FirstMatchFrom(cats: seq<Category>, text: string, from: nat): (r: nat)
    ensures from <= r <= |cats| || (from > |cats| && r == from)
    ensures r < |cats| ==> AnyKeyword(cats[r].keywords, text)
    ensures forall j :: from <= j < r && j < |cats| ==> !AnyKeyword(cats[j].keywords, text)
    decreases |cats| - from
  {
    if from >= |cats| then from
    else if AnyKeyword(cats[from].keywords, text) then from
    else FirstMatchFrom(cats, text, from + 1)
  }

  /** The category the keyword loop settles on for `policyText`. */
  function CategoryOf(cats: seq<Category>, policyText: string): string {
    var i := FirstMatchFrom(cats, policyText, 0);
    if i < |cats| then cats[i].name else UNKNOWN
  }

  function Summary(category: string): string {
    if category != UNKNOWN then FOUND_SUMMARY else NOT_MENTIONED_SUMMARY
  }

  /** The dictionary entry stored for the document at `url`. */
  function EntryFor(url: string, fetched: FetchResult): PolicyEntry {
    match fetched
    case Fetched(text) =>
      var category := CategoryOf(CATEGORIES, Lower(text));
      PolicyEntry(url, category, Summary(category))
    case RequestFailed(message) =>
      PolicyEntry(url, ERROR, FAILURE_PREFIX + message)
  }

  /**
   * The category loop: it starts from "Unknown", and the first category
   * with a keyword in the text overwrites it and stops the loop.
   */
  method Classify(policyText: string) returns (nsfwCategory: string)
    ensures nsfwCategory == CategoryOf(CATEGORIES, policyText)
  {
    nsfwCategory := UNKNOWN;
    var i := 0;
    while i < |CATEGORIES|
      invariant 0 <= i <= |CATEGORIES|
      invariant nsfwCategory == UNKNOWN
      invariant FirstMatchFrom(CATEGORIES, policyText, 0) == FirstMatchFrom(CATEGORIES, policyText, i)
    {
      if AnyKeyword(CATEGORIES[i].keywords, policyText) {
        nsfwCategory := CATEGORIES[i].name;
        break;
      }
      i := i + 1;
    }
  }

  /**
   * `get_nsfw_policy`, with `fetch` giving what requesting each URL
   * returned. One record per entry of `POLICY_URLS`, in order, each keeping
   * its URL; a request error gives category "Error".
   */
  method GetNsfwPolicy(fetch: string -> FetchResult) returns (policies: seq<PolicyRecord>)
    ensures |policies| == |POLICY_URLS|
    ensures forall i :: 0 <= i < |policies| ==>
      policies[i] == PolicyRecord(POLICY_URLS[i].0, EntryFor(POLICY_URLS[i].1, fetch(POLICY_URLS[i].1)))
  {
    policies := [];
    var i := 0;
    while i < |POLICY_URLS|
      invariant 0 <= i <= |POLICY_URLS|
      invariant |policies| == i
      invariant forall j :: 0 <= j < i ==>
        policies[j] == PolicyRecord(POLICY_URLS[j].0, EntryFor(POLICY_URLS[j].1, fetch(POLICY_URLS[j].1)))
    {
      var (name, url) := POLICY_URLS[i];
      var entry: PolicyEntry;
      match fetch(url) {
        case RequestFailed(message) =>
          entry := PolicyEntry(url, ERROR, FAILURE_PREFIX + message);
        case Fetched(text) =>
          var policyText := Lower(text);
          var nsfwCategory := Classify(policyText);
          entry := PolicyEntry(url, nsfwCategory, if nsfwCategory != UNKNOWN then FOUND_SUMMARY else NOT_MENTIONED_SUMMARY);
      }
      policies := policies + [PolicyRecord(name, entry)];
      i := i + 1;
    }
  }

  /**
   * The category is the first of the categories, in declaration order,
   * with a keyword occurring in the text, and "Unknown" when none has one.
   */
  lemma CategoryIsFirstMatch(text: string)
    ensures CategoryOf(CATEGORIES, text) == UNKNOWN <==>
      forall j :: 0 <= j < |CATEGORIES| ==> !AnyKeyword(CATEGORIES[j].keywords, text)
    ensures forall i :: 0 <= i < |CATEGORIES| ==>
      (CategoryOf(CATEGORIES, text) == CATEGORIES[i].name <==>
        AnyKeyword(CATEGORIES[i].keywords, text) && forall j :: 0 <= j < i ==> !AnyKeyword(CATEGORIES[j].keywords, text))
  {
    var r := FirstMatchFrom(CATEGORIES, text, 0);
    assert CATEGORIES[0].name != CATEGORIES[1].name && CATEGORIES[1].name != CATEGORIES[2].name && CATEGORIES[2].name != CATEGORIES[0].name;
    assert forall j :: 0 <= j < |CATEGORIES| ==> CATEGORIES[j].name != UNKNOWN;
  }

  /**
   * Every entry keeps its URL; its category is "Error" exactly when the
   * request failed, and its summary is "NSFW policy found" exactly when a
   * keyword category was found.
   */
  lemma EntryForFacts(url: string, fetched: FetchResult)
    ensures EntryFor(url, fetched).url == url
    ensures EntryFor(url, fetched).nsfwPolicyCategory == ERROR <==> fetched.RequestFailed?
    ensures EntryFor(url, fetched).summary == FOUND_SUMMARY <==>
      fetched.Fetched? && EntryFor(url, fetched).nsfwPolicyCategory != UNKNOWN
  {
    assert forall j :: 0 <= j < |CATEGORIES| ==> CATEGORIES[j].name != ERROR;
    if fetched.RequestFailed? {
      assert FAILURE_PREFIX[0] == 'F' != FOUND_SUMMARY[0];
      assert (FAILURE_PREFIX + fetched.message)[0] == FAILURE_PREFIX[0];
    }
  }

  /**
   * The keyword "NSFW content" is compared against lower-cased text, so it
   * never occurs there: the "Advertised" category matches exactly when one
   * of its three other keywords occurs.
   */
  lemma MixedCaseKeywordNeverMatches(text: string)
    ensures !Contains(Lower(text), CATEGORIES[0].keywords[1])
    ensures AnyKeyword(CATEGORIES[0].keywords, Lower(text)) <==>
      Contains(Lower(text), "explicit content") || Contains(Lower(text), "adult content")
      || Contains(Lower(text), "nudity")
  {
    var kws := CATEGORIES[0].keywords;
    UpperNeverInLower(text, kws[1], 0);
    if AnyKeyword(kws, Lower(text)) {
      var k :| 0 <= k < |kws| && Contains(Lower(text), kws[k]);
      assert k != 1;
    }
    assert kws[0] == "explicit content" && kws[2] == "adult content" && kws[3] == "nudity";
  }

  /** A document that says only "NSFW content" is classified "Unknown". */
  lemma MixedCaseKeywordCounterexample()
    ensures CategoryOf(CATEGORIES, Lower("NSFW content")) == UNKNOWN
  {
    var t := "nsfw content";
    LowerNsfwContent();
    NoAdvertisedKeyword(t);
    NoAllowedKeyword(t);
    NoProhibitedKeyword(t);
    CategoryIsFirstMatch(t);
  }

  lemma LowerNsfwContent()
    ensures Lower("NSFW content") == "nsfw content"
  {
    var s := "NSFW content";
    assert LowerChar(s[0]) == 'n' && LowerChar(s[1]) == 's' && LowerChar(s[2]) == 'f' && LowerChar(s[3]) == 'w';
  }

  lemma NoAdvertisedKeyword(t: string)
    requires t == "nsfw content"
    ensures !AnyKeyword(CATEGORIES[0].keywords, t)
  {
    var kws := CATEGORIES[0].keywords;
    assert |kws[0]| > |t| && |kws[2]| > |t|;
    assert forall j :: 0 <= j < |t| ==> t[j] != 'N' && t[j] != 'u';
    MissingCharNotContained(t, kws[1], 0);
    MissingCharNotContained(t, kws[3], 1);
  }

  lemma NoAllowedKeyword(t: string)
    requires t == "nsfw content"
    ensures !AnyKeyword(CATEGORIES[1].keywords, t)
  {
    var kws := CATEGORIES[1].keywords;
    assert forall k :: 0 <= k < |kws| ==> |kws[k]| > |t|;
  }

  lemma NoProhibitedKeyword(t: string)
    requires t == "nsfw content"
    ensures !AnyKeyword(CATEGORIES[2].keywords, t)
  {
    var kws := CATEGORIES[2].keywords;
    assert forall k :: 0 <= k < 3 ==> |kws[k]| > |t|;
    assert forall j :: 0 <= j < |t| ==> t[j] != 'b';
    MissingCharNotContained(t, kws[3], 0);
  }

  /** The categories with the keyword written in lower case, as it is compared. */
  const CORRECTED_CATEGORIES: seq<Category> := [
    Category("Advertised", ["explicit content", "nsfw content", "adult content", "nudity"]),
    Category("Allowed but not advertised", ["content moderation", "user responsibility", "user-generated content"]),
    Category("Prohibited", ["prohibited content", "restricted content", "no adult content", "banned"])
  ]

  /**
   * With the corrected keywords, a document mentioning "NSFW content" in any
   * ASCII capitalisation is classified "Advertised".
   */
  lemma CorrectedKeywordMatches(text: string)
    requires Contains(Lower(text), "nsfw content")
    ensures CategoryOf(CORRECTED_CATEGORIES, Lower(text)) == "Advertised"
  {
    assert Contains(Lower(text), CORRECTED_CATEGORIES[0].keywords[1]);
    assert AnyKeyword(CORRECTED_CATEGORIES[0].keywords, Lower(text));
  }
}

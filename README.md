# poedotcom_scraper: verified model of the login-and-pricing core

This project models the program logic in `poedotcom_refined.py`, a scraper for Poe.com. The site's
browser, the Gmail service and the HTTP fetches become abstract inputs. The model covers:

- **Code extraction.** The one-time login code is taken from an e-mail snippet by
  `re.search(r'\d{6}', snippet)`. This is the leftmost window of six digits, with no
  digit-boundary check (`CodeExtraction`).
- **Credential gate and mail fetch.** Gmail credentials are handed out only when the
  authenticated profile address equals the target address. The fetch then looks at the first
  unread message addressed to that target (`Gmail`).
- **Bounded retry loop.** `get_pricing_info` calls the fetch at most `max_retries` times. It
  sleeps after every failed call and raises `VerificationCodeRetrievalError` when no call yields
  a code (`Pricing.RetrieveCode`).
- **Pricing workflow.** The workflow logs in, opens the paywall, reads the title and features,
  and parses the yearly and then the monthly tier lists. Its `except` chain maps exceptions to
  `{"error": ...}`, and its `finally` clause quits the driver (`Browser`, `Subscription`,
  `Pricing`). The driver is a class that keeps a ghost log of the actions it performed, ending
  with `Quit`.
- **NSFW policy classification.** Each policy document is classified by the first keyword
  category, in declaration order, with a keyword occurring in its lower-cased text. A request
  error gives an `"Error"` entry (`NsfwPolicy`).

Where one might expect behaviour that the code lacks, the model follows the code (listed under
"Left out"):

- The six-digit pattern has no digit-boundary check.
- A tier with a missing title or price aborts the whole parse; it is not skipped.
- No message is marked as read, because the scope is `gmail.readonly`.
- The mail fetch inside the retry loop uses its default `target_email` (line 196), not the
  address used to log in.
- Because line 240 has the wrong keyword argument, an as-written run never returns the pricing
  dictionary. The corrected keyword is modelled beside it (see "Findings").

Modules: `Wrappers` (Option), `Text` (digits, `str.isspace`, `strip`, `lower`, substring
containment), `CodeExtraction`, `Gmail`, `NsfwPolicy`, `Exceptions` (the exception classes and the
handler messages), `Subscription` (tier parsing), `Browser` (steps, browser outcomes, the `Driver`
class) and `Pricing` (retry loop, workflow, properties of the workflow).

## Model

| member | source | states |
|---|---|---|
| `Text.Strip` | poedotcom_refined.py:164-165 | `str.strip()`: the result is the infix of the input between its leading and trailing whitespace. It is empty exactly when the input is all whitespace, and otherwise starts and ends with a non-space character. |
| `Text.StripCharacterised` | poedotcom_refined.py:164-165 | A text is the stripped form of another exactly when it is an infix of it, only whitespace lies on either side of it, and it neither starts nor ends with whitespace. `Strip` computes that one text. |
| `Text.Lower` | poedotcom_refined.py:64 | `lower()` maps every character and leaves no upper-case letter in the result. |
| `Text.Contains` | poedotcom_refined.py:69 | `keyword in policy_text` holds exactly when the keyword occurs at some index of the text. |
| `Text.UpperNeverInLower` | poedotcom_refined.py:64-69 | A keyword with an upper-case letter never occurs in a lower-cased text. |
| `CodeExtraction.FirstCodeFrom` | poedotcom_refined.py:153 | The regex scan: it finds the leftmost start of six consecutive digits at or after a position, or reports that there is none. |
| `CodeExtraction.ExtractCode` | poedotcom_refined.py:153-154 | The result is `None` exactly when no six consecutive digits occur. Otherwise it is six digits that form a contiguous substring, starting at the leftmost such position. |
| `CodeExtraction.CodeAtFront` | poedotcom_refined.py:153 | There is no boundary check: a code is extracted even when more digits follow it. |
| `CodeExtraction.CodeAfterText` | poedotcom_refined.py:153-154 | A code preceded only by non-digit text is the code extracted. |
| `CodeExtraction.ExtractionExamples` | poedotcom_refined.py:153-154 | A ten-digit run yields its first six digits, and "Your code is 482913" yields "482913". |
| `Gmail.GetGmailCredentials` | poedotcom_refined.py:101-129 | Credentials are returned exactly when authentication succeeded and the profile address equals `target_email`. A mismatch, a missing address or a failed flow gives `None`. |
| `Gmail.FirstSelectedFrom` | poedotcom_refined.py:140-149 | It finds the first message selected by `to:{target} is:unread` (the `messages[0]` of the listing), or reports that none is selected. |
| `Gmail.FetchCharacterised` | poedotcom_refined.py:132-157 | The result is `None` without credentials, when a mail call fails, or when no unread message is addressed to the target. With credentials and a listing, the result is the code pattern applied to the snippet of the first unread message addressed to the target, whenever there is one. Any code returned comes from that message and is six digits. |
| `Gmail.ClosedGateIgnoresMailbox` | poedotcom_refined.py:135-137 | With the identity gate closed, the result is `None` whatever the mailbox holds. |
| `Gmail.OnlySelectedMessagesMatter` | poedotcom_refined.py:140-142 | Inserting a read message, or a message to another recipient, at any position of the mailbox leaves the result unchanged. |
| `NsfwPolicy.Classify` | poedotcom_refined.py:66-71 | The keyword loop with `break` ends with the category of the first matching category, or with "Unknown". |
| `NsfwPolicy.CategoryIsFirstMatch` | poedotcom_refined.py:47-51 | The category is "Unknown" exactly when no category has a keyword in the text. It is a given category's name exactly when that category matches and no earlier one does. |
| `NsfwPolicy.GetNsfwPolicy` | poedotcom_refined.py:39-87 | There is one record per entry of `policy_urls`, in order and under its own name. Each record holds the URL and the classification of the fetched text, or the "Error" entry when the request failed. |
| `NsfwPolicy.EntryForFacts` | poedotcom_refined.py:73-85 | Every entry keeps its URL. The category is "Error" exactly when the request failed. The summary is "NSFW policy found" exactly when a keyword category was found. |
| `NsfwPolicy.MixedCaseKeywordNeverMatches` | poedotcom_refined.py:48 | "NSFW content" never occurs in the lower-cased text, so "Advertised" matches exactly when one of its other three keywords occurs. |
| `NsfwPolicy.MixedCaseKeywordCounterexample` | poedotcom_refined.py:48 | A document reading "NSFW content" is classified "Unknown". |
| `NsfwPolicy.CorrectedKeywordMatches` | poedotcom_refined.py:48 | With the keyword written in lower case, any text containing "nsfw content" after lower-casing is classified "Advertised". |
| `Subscription.ParsePlans` | poedotcom_refined.py:159-168 | It returns one `{plan_name, price}` per tier, in document order, with stripped texts, exactly when every tier has both a title and a price. Otherwise it raises the `AttributeError` and returns no partial list. |
| `Subscription.ParseSubscriptionDetails` | poedotcom_refined.py:159-168 | The loop that appends to `plans` computes exactly `ParsePlans` of the tier elements. |
| `Subscription.IncompleteTierAbortsParse` | poedotcom_refined.py:163-166 | Three complete tiers plus one tier without a price make the whole parse raise. |
| `Subscription.CallWithKeyword` | poedotcom_refined.py:240 | A keyword equal to the parameter name `pricing_soup` runs the parser. Any other keyword raises `TypeError` with Python's "unexpected keyword argument" message. The call agrees with `KeywordCall`, which the workflow specification uses. |
| `Subscription.TitleOrUnavailable` | poedotcom_refined.py:235-236 | The title is "Unavailable" when the paywall has no title element. Otherwise it is the element's text with the surrounding whitespace dropped. |
| `Subscription.FeaturesStripped` | poedotcom_refined.py:237 | There is one feature text per feature item, in order. Each is its item's text with the surrounding whitespace dropped. |
| `Exceptions.HandlerMessage` | poedotcom_refined.py:259-264 | A timeout reports "Operation timed out.", a missing element reports "Expected element not found on page.", and every other exception reports its own message. |
| `Browser.Driver.Perform` | poedotcom_refined.py:180-188 | A UI step either raises the browser's exception for it, or is appended to the session log. |
| `Browser.Driver.SendKeys` | poedotcom_refined.py:180-183 | A wait-and-`send_keys` step either raises the browser's exception for it, or the keys are appended to the session log. |
| `Browser.Driver.Capture` | poedotcom_refined.py:229-232 | Reading the tier container either raises, or logs the read and returns the capture for that billing cycle. |
| `Browser.Driver.Quit` | poedotcom_refined.py:265-266 | `driver.quit()` closes the session and appends `Quit` to the log. |
| `Pricing.CodeFromIsFirstSuccess` | poedotcom_refined.py:191-200 | The loop ends with no code exactly when every call within the budget fails. Otherwise it ends with the code of the first successful call within the budget. |
| `Pricing.FirstSuccessIsUsed` | poedotcom_refined.py:193-198 | If call k (k < `max_retries`) is the first call yielding a code, that code is the one used. |
| `Pricing.RetrieveCode` | poedotcom_refined.py:191-204 | On success there are k ≤ `max_retries` calls, the last one yielding the code, and k-1 sleeps. On failure there are exactly `max_retries` calls and `max_retries` sleeps (none when `max_retries` ≤ 0), every one of them failing. |
| `Pricing.LogIn` | poedotcom_refined.py:177-215 | The login steps and the retry loop, proved equal to their specification; the first exception ends the block. |
| `Pricing.ReadPaywall` | poedotcom_refined.py:224-258 | The paywall steps and both parses, proved equal to their specification. |
| `Pricing.TryBody` | poedotcom_refined.py:176-258 | On a fresh session, the statements of the `try` block end as the login block specifies. When login succeeds, they continue as the paywall block specifies. |
| `Pricing.PricingWorkflow` | poedotcom_refined.py:176-266 | On a fresh driver, the result is the handled outcome of the `try` block. The driver ends closed, with the block's log followed by one `Quit`. |
| `Pricing.GetPricingInfo` | poedotcom_refined.py:171-266 | The workflow as written, with the keyword `pricing_html` and `max_retries` defaulting to 10. |
| `Pricing.GetPricingInfoCorrected` | poedotcom_refined.py:240-247 | The same workflow, with the parser called by its parameter name. |
| `Pricing.ActionsFollowPlan` | poedotcom_refined.py:177-246 | The session's actions are always a prefix of the planned order: navigate, type the address, press the button, type the retrieved code, log in, subscribe, read the paywall, toggle monthly, read again. |
| `Pricing.QuitExactlyOnceAtEnd` | poedotcom_refined.py:265-266 | On every exit path the last action is `Quit`, and no earlier action is. |
| `Pricing.AsWrittenNeverSucceeds` | poedotcom_refined.py:240 | As written, no run returns the pricing dictionary. Every run that reaches line 240 reports the `TypeError` message. |
| `Pricing.RetrievalFailureReported` | poedotcom_refined.py:198-204 | When every fetch fails, the result is `{"error": "Unable to retrieve the verification code after maximum retries."}`. No code is typed, and the driver is quit. |
| `Pricing.CodeEnteredOnce` | poedotcom_refined.py:196-210 | At most one code is typed, and it is the code that the retry loop obtained from the default mailbox. |
| `Pricing.PaywallTimeoutReported` | poedotcom_refined.py:229-260 | A tier container that never renders gives `{"error": "Operation timed out."}`. |
| `Pricing.CorrectedRunSucceeds` | poedotcom_refined.py:234-258 | With the corrected keyword, no failing step and complete tiers, the result holds the title, the features, the yearly plans parsed from the first capture and the monthly plans parsed from the second. The log is the full planned sequence followed by `Quit`. |
| `Pricing.LogInBlockSucceeds` | poedotcom_refined.py:177-215 | With no failing login step and a retrieved code, the login block raises nothing. It types the address, presses the button, types the retrieved code and logs in. |
| `Pricing.PaywallBlockSucceeds` | poedotcom_refined.py:224-258 | With no failing paywall step, the corrected keyword and complete tiers, the paywall block returns the title, the features and both parses. It performs its four actions. |
| `Pricing.CorrectedRunReadsTitleAndFeatures` | poedotcom_refined.py:234-257 | In a corrected run with no failures, the returned title is "Unavailable" when the title element is absent, and the stripped element text otherwise. Every feature item contributes its stripped text, in order. |
| `Pricing.CorrectedMonthlyFailureDiscardsYearly` | poedotcom_refined.py:247-264 | With the corrected keyword, an incomplete monthly tier makes the whole result the `AttributeError` message. The yearly plans are not returned. |

## Findings

| source | as written | input that shows it | evidently intended | confidence | as-written member | corrected member |
|---|---|---|---|---|---|---|
| poedotcom_refined.py:240 | `parse_subscription_details(pricing_html=soup)`, but the parameter is named `pricing_soup` (line 159); line 247 repeats the mistake | any run whose login and paywall steps succeed: the result is `{"error": "parse_subscription_details() got an unexpected keyword argument 'pricing_html'"}` | call the parser with `pricing_soup=` so that the yearly and monthly plans are returned | not executed | `Pricing.AsWrittenNeverSucceeds` | `Pricing.CorrectedRunSucceeds` |
| poedotcom_refined.py:48 | keyword `"NSFW content"` is compared with text lower-cased at line 64 | a document whose text is "NSFW content" is classified "Unknown" | the keyword written as `"nsfw content"` | not executed | `NsfwPolicy.MixedCaseKeywordCounterexample` | `NsfwPolicy.CorrectedKeywordMatches` |

`GetNsfwPolicy` keeps the keyword as written. The corrected table `CORRECTED_CATEGORIES` only
carries the intended property.

## Left out

- Browser automation (`WebDriverWait`, `find_element`, clicks, `send_keys`, `outerHTML`): each
  interaction is one step that either completes or raises a given exception. A failure of
  `send_keys` or `click` counts as a failure of its step. Wait durations and `implicitly_wait`
  are not modelled.
- Creating the driver (lines 173-174) happens outside the `try` and is not modelled. The model
  starts from a live driver.
- Gmail OAuth, token-file removal and pickling, `build` and the API calls (lines 107-124,
  139-149): one `AuthOutcome` and one optional mailbox per call stand in for them.
- Gmail's `to:` search is modelled as exact equality of the recipient address. The listing
  order is the mailbox order the service returns.
- `time.sleep` durations, `datetime.now()` and console `print` output: sleeps are counted, and
  nothing else is modelled.
- `get_specialty`, `get_server_status`, `get_language_support`, `initialise_webdriver`: these
  are single-request scraping or browser wrappers with no logic beyond library calls.
- `get_useful_links` (a constant map), `save_to_json` and `main` (file output and glue).
- HTML parsing by BeautifulSoup and `get_text()`: a snapshot holds the texts of the title,
  feature and tier elements. A fetched policy document is given as its extracted text.
- `get_nsfw_policy`: an exception other than a request error (one raised by the HTML parser,
  say) would propagate out of the function; the model has no such failure. The result dictionary
  is modelled as a sequence of (name, entry) records in insertion order, without the outer
  `"nsfw_policy"` key.
- `ExtractCode`: `\d` is restricted to ASCII digits. Python also matches other Unicode decimal
  digits.
- `Lower`: only ASCII letters are case-mapped. Python's `str.lower` maps all of Unicode.
- `RetrieveCode`: the loop's truthiness test `not verification_code` is modelled as "no code".
  Codes are always six characters long, so an empty string never occurs.
- Behaviour one might expect but that the code lacks is not added: boundary-aware code
  matching, skipping incomplete tiers, marking messages as consumed, and checking the logged-in
  identity against `email_address`.
- `UnexpectedKeywordMessage`: the `TypeError` text is the one CPython 3.12 and earlier give.
  From CPython 3.13 the message may continue with a "Did you mean ...?" suggestion. The run
  still ends in the generic handler with that message.

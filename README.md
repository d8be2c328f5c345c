# WCAG checker tools — a Dafny model

This project models `src/wcag_agents/tools.py`, the tool layer of a set of
accessibility-audit agents. Each tool takes a URL and returns a report
dict with these keys: `wcag_criteria`, `test_results`, `recommendations`,
`url` and `status`. The modelled parts are:

- **Address normalization** (`_normalize_url`). An address without the
  "http" prefix gets "https://" in front.
- **Fixed-text checkers.** The eight checkers whose report is canned text
  (keyboard, seizure, navigation structure, input modalities, focus not
  obscured, focus appearance, dragging, target size), plus the root-level
  summary. Only the address varies.
- **Page-inspecting checkers**: timing controls (2.2.x), readability
  (3.1.x), predictability (3.2.x) and input assistance (3.3.x).
  - A fetched, parsed page is an input, or the error its fetch raised.
  - Each sub-check's value is a marker plus an explanation, modelled as a
    `Note(mark, text)`. The marker is ✅, ⚠️ or ❌.
  - A checker makes one of two reports. The tested report is the decision
    each sub-check takes from the page. The error report is what its
    `except` branch builds.
- **External scanners.** `_run_cli` turns an abstract process outcome
  into a JSON value. Three adapters (`run_pa11y`, `run_axe_devtools`,
  `run_lighthouse_accessibility`) gate on `npx`, build a fixed argv and
  wrap the result.

Regular expressions are modelled in two parts:

- Compiling is the part the checkers' control flow depends on. Module
  `Regex` decides it: it raises on unbalanced groups or a trailing lone
  backslash. It decides the four patterns the checkers compile exactly; in
  general it checks only group balance and a trailing backslash.
- What a compiled pattern matches is an abstract `Matcher`.

This is enough to show two source defects as written (see "## Findings"):

- the timing checker can never succeed;
- the input-assistance checker fails on every page that has a form.

Beside each as-written checker the model gives the intended one and proves
its decision rules.

The imperative parts of the source are `method`s with their loops or
statements, each proved equal to the function that specifies it:

- `Timing.BuildRecommendations`: the conditional `append`s;
- `Readability.BuildLanguageOfPage`: the `+=` on `language_of_page`;
- `InputAssistance.NameCounts` and `InputAssistance.RedundantEntries`: the
  `name_counts` loop.

Two behaviours of the code are easy to misread, and the model follows the
code in both:

- `change_on_request` (tools.py:472-473) flags every form whose `onsubmit`
  matches the navigation pattern, and its message says such forms submit
  "without user confirmation". No test for `confirm(` is made there: the
  only such test is the 3.3.4 heuristic of the input-assistance checker
  (tools.py:531-532). A navigating handler that asks for confirmation is
  still flagged (`Predictability.ChangeOnRequest`).
- All steps of `test_readability` share the one `try` of tools.py:359-413,
  so `detect` raising on the sample sends every sub-check, not only
  `language_of_page`, to the ERROR report (`Readability.Scan`).

Modules: `Wrappers`, `Text` (whitespace, strip, collapse, lower-casing,
decimal rendering), `Collections` (count, de-duplication, filtering),
`Url`, `Json`, `Reports` (status, report envelope, markers), `Regex`,
`Document` (elements and pages), `Placeholders`, `Timing`, `Readability`,
`Predictability`, `InputAssistance`, `Cli`.

## Model

| member | source | states |
|---|---|---|
| Url.NormalizeUrl | src/wcag_agents/tools.py:5-8 | the result always starts with "http"; it equals the input exactly when the input already starts with "http", and is "https://" + input otherwise |
| Url.NormalizeIdempotent | src/wcag_agents/tools.py:5-8 | normalizing an already normalized address changes nothing |
| Placeholders.Stamp | src/wcag_agents/tools.py:12-31 | a canned report carries the normalized address and its fixed criteria, results, recommendations and status unchanged |
| Placeholders.PlaceholderReport | src/wcag_agents/tools.py:12-31 | every fixed-text checker reports the normalized input address |
| Placeholders.KeyboardAccessibility | src/wcag_agents/tools.py:12-31 | status TESTED, 4 criteria, 4 results, every value non-empty, normalized address |
| Placeholders.SeizurePrevention | src/wcag_agents/tools.py:110-126 | status SAFE, 3 criteria, 3 results, every value non-empty, normalized address |
| Placeholders.NavigationStructure | src/wcag_agents/tools.py:130-165 | status NEEDS_REVIEW, 10 criteria, 10 results, every value non-empty |
| Placeholders.InputModalities | src/wcag_agents/tools.py:169-189 | status NEEDS_TESTING, 6 criteria, 6 results, every value non-empty |
| Placeholders.FocusNotObscured | src/wcag_agents/tools.py:282-299 | status NEEDS_REVIEW, 2 criteria, 2 results |
| Placeholders.FocusAppearance | src/wcag_agents/tools.py:302-316 | status NEEDS_REVIEW, 1 criterion, 1 result |
| Placeholders.DraggingMovements | src/wcag_agents/tools.py:319-332 | status NEEDS_TESTING, 1 criterion, 1 result |
| Placeholders.TargetSizeMinimum | src/wcag_agents/tools.py:335-349 | status NEEDS_TESTING, 1 criterion, 1 result |
| Placeholders.PlaceholderIgnoresPage | src/wcag_agents/tools.py:12-31 | any two addresses get the same criteria, results, recommendations and status from a fixed-text checker |
| Placeholders.WebsiteAccessibility | src/wcag_agents/tools.py:193-196 | a one-member object `result` whose sentence names the normalized address |
| Reports.Note.Render | src/wcag_agents/tools.py:63-68 | a sub-check value is its marker's symbol followed by its text, and starts with ✅ exactly when the note passed |
| Reports.Verdict | src/wcag_agents/tools.py:63-68 | `"✅ …" if ok else "⚠️ …"`: flagged exactly when not ok, carrying the matching text |
| Reports.Check | src/wcag_agents/tools.py:526 | `"✅ …" if ok else "❌ …"`: flagged exactly when not ok, carrying the matching text |
| Regex.Compile | src/wcag_agents/tools.py:58 | `re.compile` succeeds, yielding the pattern, exactly when its groups balance and it has no trailing lone backslash; otherwise a non-empty error (this decides the four patterns of the checkers exactly; in general only group balance and a trailing backslash are checked) |
| Regex.Search | src/wcag_agents/tools.py:532 | `re.search` raises exactly when the pattern does not compile, whatever the subject; otherwise it is the matcher's answer |
| Timing.TimerPatternAsWrittenRejected | src/wcag_agents/tools.py:58 | the timer pattern as written (`set(Time\|Interval)\\s*\\(` seen by the engine) does not compile |
| Timing.TimerPatternIntendedAccepted | src/wcag_agents/tools.py:58 | the intended timer pattern `set(Time\|Interval)\s*\(` compiles |
| Timing.PageSignals | src/wcag_agents/tools.py:49-59 | each flag holds exactly when some element is a refresh `<meta>`, an autoplaying `<video>`/`<audio>`, or a `<marquee>` |
| Timing.Recommendations | src/wcag_agents/tools.py:72-80 | never empty; each advice line present exactly when its issue is; the "no major issues" line exactly when no issue, then alone; no other line; lines in append order |
| Timing.BuildRecommendations | src/wcag_agents/tools.py:72-80 | the conditional appends build exactly `Recommendations` |
| Timing.TimingResults.Entries | src/wcag_agents/tools.py:62-70 | the six result keys in order, every value non-empty |
| Timing.TestedReport | src/wcag_agents/tools.py:62-82 | status TESTED exactly when no red flag, else NEEDS_REVIEW; `timing_adjustable` flagged iff JS timers; `pause_stop_hide` iff autoplay; `no_timing` iff timers or meta refresh; `interruptions` and `timeouts` iff meta refresh; `re_authenticating` always |
| Timing.ErrorReport | src/wcag_agents/tools.py:84-98 | status ERROR, the two fixed recommendations, every sub-check flagged, the exception text inside `timing_adjustable` |
| Timing.Scan | src/wcag_agents/tools.py:39-98 | ERROR exactly when the fetch fails or the timer pattern does not compile; a failed fetch gives the error report carrying its exception text; otherwise the tested report of the page's own signals |
| Timing.TimingControls | src/wcag_agents/tools.py:35-106 | the report carries the normalized address and the fixed criteria; a failed fetch of that address gives the error report with its exception text |
| Timing.TimingControlsIntended | src/wcag_agents/tools.py:35-106 | the same envelope and failed-fetch report, with the intended timer pattern |
| Timing.TimingControlsAlwaysErrors | src/wcag_agents/tools.py:58 | as written, every call reports ERROR with the two fallback recommendations |
| Timing.TimingControlsIntendedDecides | src/wcag_agents/tools.py:39-98 | with the intended pattern, ERROR exactly when the fetch fails, and otherwise the tested report of the fetched page |
| Timing.MetaRefreshNeedsReview | src/wcag_agents/tools.py:66-82 | a page with a refresh `<meta>` gets `interruptions` flagged and status NEEDS_REVIEW |
| Timing.MarqueeOnlyInStatus | src/wcag_agents/tools.py:55-82 | a marquee changes no sub-check value |
| Readability.PageLang | src/wcag_agents/tools.py:365 | the root's `lang` lower-cased, "" when the root has no `lang` or there is no root |
| Readability.SecondaryParts | src/wcag_agents/tools.py:369 | exactly the elements whose lower-cased `lang` differs from the page's |
| Readability.DetectedLanguage | src/wcag_agents/tools.py:380 | an all-whitespace sample is "unknown" without calling the detector; otherwise the detector's answer or its exception |
| Readability.LanguageOfPage | src/wcag_agents/tools.py:365-382 | fails exactly when the root has no language; a differing detected language is appended to the text and keeps the pass marker |
| Readability.BuildLanguageOfPage | src/wcag_agents/tools.py:366-382 | the assignment then `+=` build exactly `LanguageOfPage` |
| Readability.DifficultPercent | src/wcag_agents/tools.py:385-388 | the ratio is below 5% exactly when difficult × 100 < 5 × words, with 0 words counted as 1 |
| Readability.LanguageOfParts | src/wcag_agents/tools.py:369-372 | warns exactly when no element declares another language; otherwise names their count |
| Readability.UnusualWords | src/wcag_agents/tools.py:385-388 | warns exactly when difficult × 100 ≥ 5 × words (0 words counted as 1) |
| Readability.Abbreviations | src/wcag_agents/tools.py:391-395 | warns exactly when more than 10 distinct abbreviations occur |
| Readability.ReadingLevel | src/wcag_agents/tools.py:398-400 | warns exactly when the Flesch reading ease is below 60 |
| Readability.Pronunciation | src/wcag_agents/tools.py:403-407 | warns exactly when there is no `<ruby>` and the markup has no "<phoneme" |
| Readability.ReadabilityResults.Entries | src/wcag_agents/tools.py:415-424 | the six result keys in order, every value non-empty |
| Readability.ErrorReport | src/wcag_agents/tools.py:411-413 | status ERROR, every sub-check "❌ Error: " + the exception text |
| Readability.Measure | src/wcag_agents/tools.py:365-407 | `language_of_page` fails exactly when the page language is ""; `language_of_parts` warns exactly when no element declares another language; the three sample checks warn exactly at their thresholds; `pronunciation` warns exactly without `<ruby>` and "<phoneme" |
| Readability.Scan | src/wcag_agents/tools.py:359-413 | ERROR exactly when the fetch fails or the detector raises on a non-blank sample; a failed fetch gives the error report with its text; otherwise TESTED with the six measures |
| Readability.ReadabilityCheck | src/wcag_agents/tools.py:353-434 | the report carries the normalized address and the fixed criteria; a failed fetch gives the error report with its exception text |
| Readability.BlankSampleNeverErrors | src/wcag_agents/tools.py:380 | a page whose sample is blank is TESTED with detected language "unknown" |
| Readability.DetectorOnlyAffectsLanguageOfPage | src/wcag_agents/tools.py:380-407 | the detector's answer affects only `language_of_page` |
| Readability.MismatchKeepsPassMarker | src/wcag_agents/tools.py:381-382 | a declared language disagreeing with the detector still renders with ✅ |
| Text.Strip | src/wcag_agents/tools.py:209-210 | `str.strip`: a slice of the input with only whitespace cut off either end, and empty exactly when the input is all whitespace |
| Text.Collapse | src/wcag_agents/tools.py:376 | `re.sub(r"\s+", " ", …)`: every whitespace character becomes a space and no two are adjacent; non-whitespace kept in order; empty exactly when the input is; starts and ends with a space exactly when the input starts and ends with whitespace |
| Text.CollapseKeepsWords | src/wcag_agents/tools.py:376 | collapsing keeps the words: with the start and end conditions of `Collapse`, each whitespace run became exactly one space |
| Text.Words | src/wcag_agents/tools.py:385 | the maximal runs of non-whitespace, each non-empty and without whitespace, and at least one when the text ends in non-whitespace |
| Text.WordCount | src/wcag_agents/tools.py:385 | `len(s.split())`: the number of words of `s` |
| Text.Lower | src/wcag_agents/tools.py:365 | `str.lower` on ASCII: same length, each upper-case letter becomes its lower-case letter, every other character unchanged |
| Text.NatToString | src/wcag_agents/tools.py:394 | `str(n)`: decimal digits with no leading zero whose value is `n` |
| Text.Sample | src/wcag_agents/tools.py:375-377 | the first min(15000, length) characters of the collapsed text, itself collapsed |
| Text.CollapseIdempotent | src/wcag_agents/tools.py:376 | collapsing twice is collapsing once |
| Text.WordCountZero | src/wcag_agents/tools.py:385 | `len(s.split())` is 0 exactly when the sample is all whitespace |
| Predictability.NavPatternCompiles | src/wcag_agents/tools.py:449 | the navigation pattern compiles |
| Predictability.HandlerText | src/wcag_agents/tools.py:458 | the truthy `oninput` and `onchange` handlers, in that order, joined by one space; "" when neither is truthy |
| Predictability.ButtonLabels | src/wcag_agents/tools.py:466-467 | one label per `<button>`, in order: its stripped text lower-cased |
| Predictability.InputNavigation | src/wcag_agents/tools.py:457-458 | the navigating elements of the `oninput` list followed by those of the `onchange` list |
| Predictability.OnFocus | src/wcag_agents/tools.py:452-454 | fails exactly when some `onfocus` handler matches the navigation pattern |
| Predictability.OnInput | src/wcag_agents/tools.py:457-459 | fails exactly when the input list has a navigating handler, naming that list's length |
| Predictability.ConsistentNavigation | src/wcag_agents/tools.py:462-463 | warns exactly when the page has no `<nav>` |
| Predictability.ConsistentIdentification | src/wcag_agents/tools.py:466-469 | warns exactly when two lower-cased, stripped button labels coincide |
| Predictability.ChangeOnRequest | src/wcag_agents/tools.py:472-473 | fails exactly when some form's non-empty `onsubmit` matches the navigation pattern; `confirm(` plays no part |
| Predictability.ConsistentHelp | src/wcag_agents/tools.py:476-477 | warns exactly when no `<a>` with a single string matches `help\|faq\|support` |
| Predictability.PredictabilityResults.Entries | src/wcag_agents/tools.py:484-493 | the six result keys in order, every value non-empty |
| Predictability.ErrorReport | src/wcag_agents/tools.py:480-482 | status ERROR, every sub-check "❌ Error: " + the exception text |
| Predictability.Measure | src/wcag_agents/tools.py:462-463 | `consistent_navigation` warns exactly when no element is a `<nav>` |
| Predictability.MeasureInputAndLabels | src/wcag_agents/tools.py:457-469 | `on_input` fails exactly when some input handler navigates; `consistent_identification` warns exactly when a button label repeats |
| Predictability.MeasurePatternChecks | src/wcag_agents/tools.py:452-477 | `on_focus` and `change_on_request` fail exactly when some `onfocus` / `onsubmit` navigates; `consistent_help` warns exactly when no link offers help |
| Predictability.Scan | src/wcag_agents/tools.py:445-482 | criteria, recommendations and address are always the fixed ones; ERROR exactly when the fetch fails or the navigation or help pattern does not compile; a failed fetch gives the error report carrying its exception text; any other report is TESTED with the page's measures |
| Predictability.PredictabilityCheck | src/wcag_agents/tools.py:439-503 | the report carries the normalized address and the fixed criteria; a failed fetch gives the error report with its exception text |
| Predictability.ErrorOnlyOnFetchFailure | src/wcag_agents/tools.py:445-482 | ERROR exactly when the fetch fails; a fetched page is TESTED with its measures |
| Predictability.InputCountIsSumOfLists | src/wcag_agents/tools.py:457-459 | the reported count is the navigating `oninput` elements plus the navigating `onchange` elements |
| Predictability.BothHandlersCountTwice | src/wcag_agents/tools.py:457-459 | an element with both handlers that navigates is counted twice |
| Predictability.DuplicateLabelsFlagged | src/wcag_agents/tools.py:466-469 | two equal labels flag `consistent_identification` |
| InputAssistance.ConfirmPatternAsWrittenRejected | src/wcag_agents/tools.py:532 | the confirmation pattern as written (`confirm\\(` seen by the engine) does not compile |
| InputAssistance.ConfirmPatternIntendedAccepted | src/wcag_agents/tools.py:532 | the intended pattern `confirm\(` compiles |
| InputAssistance.Controls | src/wcag_agents/tools.py:517 | exactly the `input`, `textarea` and `select` elements |
| InputAssistance.LabelTexts | src/wcag_agents/tools.py:518 | keyed by exactly the labels' `for` values (None when absent) |
| InputAssistance.LastLabelWins | src/wcag_agents/tools.py:518 | each key maps to the text of the last label with that `for`: a later label replaces an earlier one |
| InputAssistance.ForlessLabelCoversIdlessControls | src/wcag_agents/tools.py:518-525 | a control without `id` counts as labelled once some label lacks `for` |
| InputAssistance.Names | src/wcag_agents/tools.py:545-547 | a string is listed exactly when it is the non-empty `name` of some control |
| InputAssistance.RedundantNames | src/wcag_agents/tools.py:543-549 | a name is reported exactly when it is a non-empty `name` occurring more than once; none twice; in first-occurrence order |
| InputAssistance.RepeatedOnceEach | src/wcag_agents/tools.py:549 | keeping the distinct elements that occur more than once yields exactly the repeated ones, each once, in first-occurrence order |
| InputAssistance.NameCounts | src/wcag_agents/tools.py:544-548 | the loop leaves each truthy name mapped to its number of occurrences, keys in first-occurrence order |
| InputAssistance.TallyStep | src/wcag_agents/tools.py:546-548 | one more truthy name: a new name joins the dict's insertion order and its count goes up by one |
| InputAssistance.RedundantEntries | src/wcag_agents/tools.py:544-549 | the loop and the comprehension compute exactly `RedundantNames` |
| InputAssistance.RiskyForms | src/wcag_agents/tools.py:532 | raises exactly when there is a form and the pattern does not compile; otherwise the forms whose `onsubmit` (default "") matches |
| InputAssistance.InputResults.Entries | src/wcag_agents/tools.py:562-584 | the nine result keys in order, every value non-empty |
| InputAssistance.ErrorIdentification | src/wcag_agents/tools.py:521-522 | passes exactly when some control has `aria-invalid="true"` |
| InputAssistance.LabelsInstructions | src/wcag_agents/tools.py:525-526 | fails exactly when some control has neither a label entry for its `id` nor a non-empty `aria-label`/`aria-labelledby` |
| InputAssistance.ErrorSuggestion | src/wcag_agents/tools.py:529 | passes exactly when the lower-cased markup contains "error" |
| InputAssistance.ErrorPreventionCritical | src/wcag_agents/tools.py:533 | passes exactly when some form is risky |
| InputAssistance.Help | src/wcag_agents/tools.py:536-537 | passes exactly when some element has `aria-describedby` |
| InputAssistance.ErrorPreventionAll | src/wcag_agents/tools.py:540-541 | warns exactly when some control has `autocomplete="off"` |
| InputAssistance.RedundantEntry | src/wcag_agents/tools.py:549-550 | warns exactly when a name repeats, listing the repeated names joined by ", " |
| InputAssistance.AccessibleAuthMinimum | src/wcag_agents/tools.py:553-554 | warns exactly when some control has `type="password"` |
| InputAssistance.Measure | src/wcag_agents/tools.py:529-555 | `error_suggestion` passes exactly when the lower-cased markup has "error"; `error_prevention_critical` exactly when some form is risky; `help` exactly when some element has `aria-describedby`; `accessible_auth_enhanced` is always its fixed warning |
| InputAssistance.MeasureControlChecks | src/wcag_agents/tools.py:521-554 | `error_identification` passes, and `error_prevention_all` and `accessible_auth_minimum` warn, exactly when some control has `aria-invalid="true"`, `autocomplete="off"`, `type="password"` respectively |
| InputAssistance.MeasureLabelsAndNames | src/wcag_agents/tools.py:525-550 | `labels_instructions` fails exactly when some control is unlabelled; `redundant_entry` warns exactly when some name repeats |
| InputAssistance.ErrorReport | src/wcag_agents/tools.py:558-560 | status ERROR, every sub-check "❌ Error: " + the exception text |
| InputAssistance.Scan | src/wcag_agents/tools.py:512-560 | ERROR exactly when the fetch fails, or the page has a form and the confirmation pattern does not compile; otherwise TESTED with the nine sub-checks |
| InputAssistance.InputAssistanceCheck | src/wcag_agents/tools.py:508-595 | the report carries the normalized address and the fixed criteria; a failed fetch gives the error report with its exception text |
| InputAssistance.InputAssistanceCheckIntended | src/wcag_agents/tools.py:508-595 | the same envelope and failed-fetch report, with the intended confirmation pattern |
| InputAssistance.AsWrittenErrorsOnForms | src/wcag_agents/tools.py:532 | as written, ERROR exactly when the fetch fails or the page has a form |
| InputAssistance.IntendedErrorsOnlyOnFetchFailure | src/wcag_agents/tools.py:512-560 | with the intended pattern, ERROR exactly when the fetch fails |
| Collections.Dedup | src/wcag_agents/tools.py:544-549 | the distinct elements, each once, every element represented |
| Collections.DedupOrder | src/wcag_agents/tools.py:549 | the distinct elements come in order of first occurrence, as a dict's keys do |
| Collections.TallyCounts | src/wcag_agents/tools.py:544-548 | the dict left by the counting loop maps exactly the elements, each to its number of occurrences |
| Collections.SetSizeDetectsRepeat | src/wcag_agents/tools.py:468 | `len(s) != len(set(s))` exactly when the list has a repeat |
| Cli.RunCli | src/wcag_agents/tools.py:200-214 | exit 0: the parsed JSON, or `{"stdout": strip(stdout)}` when it does not parse; nonzero exit: `{"error": …}` with stripped stderr, or stripped stdout when stderr is blank; not found: the message starting with `cmd[0]`; any other fault: its text |
| Cli.FailuresAreErrors | src/wcag_agents/tools.py:204-214 | every outcome but a clean exit is a bare error object |
| Cli.NonzeroExitMessageStripped | src/wcag_agents/tools.py:210 | a nonzero exit's message has no whitespace at either end |
| Cli.NotFoundNamesExecutable | src/wcag_agents/tools.py:211-212 | the not-found message starts with the executable's name |
| Cli.CleanExitIsNotError | src/wcag_agents/tools.py:209 | a clean exit with unparsable output is never an error object |
| Cli.Tool.Argv | src/wcag_agents/tools.py:223-275 | every argv starts with `npx` and carries the address third |
| Cli.RunTool | src/wcag_agents/tools.py:218-277 | without `npx`: a bare error naming the tool; otherwise `{tool, url, result}` with the normalized address and `_run_cli` of the tool's argv |
| Cli.RunPa11y | src/wcag_agents/tools.py:218-225 | the Pa11y error without `npx`; otherwise tool "pa11y", the normalized address, and the result of `npx pa11y <url> --reporter json` |
| Cli.RunAxeDevtools | src/wcag_agents/tools.py:229-236 | the axe error without `npx`; otherwise tool "axe-devtools" and the result of `npx axe <url> --tags wcag2a,wcag2aa --format json` |
| Cli.RunLighthouseAccessibility | src/wcag_agents/tools.py:262-277 | the Lighthouse error without `npx`; otherwise tool "lighthouse" and the result of its seven-word argv |
| Cli.WithoutNpxNothingRuns | src/wcag_agents/tools.py:221-222 | without `npx` the result does not depend on the runner |
| Cli.WithNpxRunsArgv | src/wcag_agents/tools.py:223-225 | with `npx` the result depends on the runner only through the tool's argv, whose address starts with "http" |
| Cli.EnvelopeIsNotError | src/wcag_agents/tools.py:225 | an adapter that found `npx` never returns a bare error object |

## Left out

- Network and parsing. `requests.get` (timeout, headers) and BeautifulSoup/lxml parsing are left out: a page is given as its markup, its text and its elements in document order. A fetch or parse failure is the text of its exception (`Document.Fetcher`).
- CSS `select("video[autoplay], audio[autoplay]")` is modelled by tag name plus presence of `autoplay`. `find_all("a", string=…)` is modelled through the element's single string.
- Text analysis. `textstat` (difficult words, Flesch score, grade text) and `langdetect` are functions supplied as inputs (`Readability.Analysis`). So are the `:.1f` / `:.0f` number formats and the abbreviation `findall`. Only the threshold decisions are modelled.
- Readability.Scan: the `textstat` functions and the abbreviation `findall` are modelled as total, so its ERROR condition assumes they never raise; only the fetch and `detect` can.
- Readability.DetectedLanguage: `langdetect.detect` is randomized unless `DetectorFactory.seed` is set, which the source never does. The model treats the detector as a function of the sample.
- Readability.DifficultPercent: computes with exact reals, not IEEE doubles. Its threshold is stated as exact integer arithmetic on the counts.
- Text.Lower: lower-cases ASCII letters only. Unicode case mapping is not modelled.
- Text.IsSpace: covers the Unicode whitespace characters of `str.isspace` as a fixed table. Unicode databases are not consulted.
- Regex.Compile: checks only group balance and a trailing lone backslash, so it accepts patterns CPython rejects: nothing to repeat (`*`), multiple repeat (`a**`), a bad escape (`\q`), a minimum repeat above the maximum (`a{2,1}`). It also rejects patterns CPython compiles: a parenthesis inside a character class (`[(]`) or a comment group (`(?#()`) is counted as a group. None of this arises for the four patterns of the checkers, which it decides exactly.
- Regex matching. What a compiled pattern matches, with or without `re.IGNORECASE`, is the abstract `Regex.Matcher`. Compile failures are decided by group balance and a trailing lone backslash, which covers both patterns that fail here. Other `re.error` causes are not modelled.
- Exception texts. The exact text of `str(exc)` is not modelled: CPython adds " at position N" to `re.error` messages. The messages in `Regex` are representative.
- The imports at tools.py:355-357, 441-442 and 510-511 sit outside the `try` of `test_readability`, `test_predictability` and `test_input_assistance`, so there a missing library raises out of the checker (only `test_timing_controls` imports inside its `try`, tools.py:40-42). That raise is environment-dependent and not modelled.
- `subprocess.run`, its 180-second timeout, `shutil.which` and `json.loads` are abstract: a `Cli.ProcessOutcome`, a boolean and a partial `Cli.Parser`.
- Cli.RunCli: requires a non-empty argv, since `cmd[0]` names the executable. Every caller passes a fixed argv of five or more words.
- `get_accessibility_tree` (tools.py:240-260) drives a Playwright browser and manages its resources. It is not part of this model.
- Placeholders.Template: the checkers' fixed texts are transcribed; the contracts state their statuses, sizes and non-emptiness rather than every string.

## Findings

| source | as written | input that shows it | evidently intended | confidence | as-written member | corrected member |
|---|---|---|---|---|---|---|
| src/wcag_agents/tools.py:58 | `re.compile(r"set(Time\|Interval)\\s*\\(")`: the raw string hands the engine `\\` (a literal backslash) before the final `(`, which opens a group that is never closed, so `re.compile` raises and every call falls into the `except` branch | any URL whose page fetches, e.g. a page with empty markup: status ERROR, "Unable to fetch page to test (missing ), unterminated subpattern …)" | `set(Time\|Interval)\s*\(`, matching a call to `setTimeout` / `setInterval` | not executed | Timing.TimingControlsAlwaysErrors | Timing.TimingControlsIntendedDecides |
| src/wcag_agents/tools.py:532 | `re.search(r"confirm\\(", …)`: the engine sees `confirm`, a literal backslash and an unclosed group, so the first search raises and the whole report is ERROR whenever the page has a `<form>` | a page containing `<form onsubmit="return confirm('Sure?')">`: status ERROR, every sub-check "❌ Error: …" | `confirm\(`, matching a call to `confirm(` | not executed | InputAssistance.AsWrittenErrorsOnForms | InputAssistance.IntendedErrorsOnlyOnFetchFailure |

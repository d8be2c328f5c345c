/** `test_predictability` (criteria 3.2.1-3.2.6): event handlers that
    navigate, navigation landmarks, button labels and help links. */
module Predictability {
  import opened Wrappers
  import opened Text
  import opened Collections
  import opened Url
  import opened Reports
  import opened Regex
  import opened Document

  const Criteria: seq<string> := ["3.2.1", "3.2.2", "3.2.3", "3.2.4", "3.2.5", "3.2.6"]

  const ResultKeys: seq<string> :=
    ["on_focus", "on_input", "consistent_navigation", "consistent_identification", "change_on_request", "consistent_help"]

  const Advice: seq<string> := [
    "Avoid changing pages automatically on focus or input events.",
    "Use <nav> landmarks and keep navigation order stable.",
    "Label components consistently across the site.",
    "Ensure context changes occur only after explicit user action (e.g., button click).",
    "Provide a persistent Help / FAQ link on every page."]

  /** Script that navigates: `location\.href|window\.location|document\.location`,
      written as its three alternatives. */
  const NavPattern: Pattern := Pattern("location\\.href|" + "window\\.location|" + "document\\.location", true)

  /** Link text that offers help: `help|faq|support`. */
  const HelpPattern: Pattern := Pattern("help|faq|support", true)

  lemma NavPatternCompiles()
    ensures Balanced(NavPattern.source)
  {
    var a, b, c := "location\\.href|", "window\\.location|", "document\\.location";
    assert GroupDepth(a, 0, 0) == Ok(0) by {}
    assert GroupDepth(b, 0, 0) == Ok(0) by {}
    assert GroupDepth(c, 0, 0) == Ok(0) by {}
    GroupDepthConcat(a, b, 0, 0);
    GroupDepthConcat(a + b, c, 0, 0);
  }

  lemma HelpPatternCompiles()
    ensures Balanced(HelpPattern.source)
  {
    var h := "help|faq|support";
    assert GroupDepth(h, 0, 0) == Ok(0) by {}
  }

  // The texts of the sub-check values, after their markers.
  const NoFocusNavText: string := " No focus-triggered navigation"
  const FocusNavText: string := " elements change context on focus"
  const NoInputNavText: string := " No input-triggered context change"
  const InputNavText: string := " elements change context on input"
  const NavPresentText: string := " <nav> landmarks present"
  const NoNavText: string := " No explicit <nav> landmarks detected"
  const ConsistentLabelsText: string := " Component labelling appears consistent"
  const DuplicateLabelsText: string := " Duplicate button labels might cause confusion"
  const NoAutoSubmitText: string := " No unsolicited context changes detected"
  const AutoSubmitText: string := " forms submit automatically without user confirmation"
  const HelpText: string := " Help links found"
  const NoHelpText: string := " No help links detected"

  /** An element whose `onfocus` handler navigates. */
  predicate FocusNavigates(m: Matcher, e: Element) {
    "onfocus" in e.attrs && m(NavPattern, e.attrs["onfocus"])
  }

  /** The element's truthy `oninput` and `onchange` handlers, in that
      order, joined by a space. */
  function HandlerText(e: Element): (r: string)
    ensures var i, c := Truthy(Get(e, "oninput")), Truthy(Get(e, "onchange"));
      r == if i && c then e.attrs["oninput"] + " " + e.attrs["onchange"]
        else if i then e.attrs["oninput"]
        else if c then e.attrs["onchange"]
        else ""
  {
    var parts :=
      (if Truthy(Get(e, "oninput")) then [e.attrs["oninput"]] else [])
      + (if Truthy(Get(e, "onchange")) then [e.attrs["onchange"]] else []);
    assert |parts| == 2 ==> Join(" ", parts[1..]) == parts[1];
    Join(" ", parts)
  }

  /** A form whose truthy `onsubmit` handler navigates. */
  predicate SubmitNavigates(m: Matcher, e: Element) {
    e.tag == "form" && Truthy(Get(e, "onsubmit")) && m(NavPattern, e.attrs["onsubmit"])
  }

  /** A link whose sole string offers help. */
  predicate HelpLink(m: Matcher, e: Element) {
    e.tag == "a" && e.soleString.Some? && m(HelpPattern, e.soleString.value)
  }

  /** One label per button, in document order: the button's stripped text,
      lower-cased. */
  function ButtonLabels(els: seq<Element>): (labels: seq<string>)
    ensures |labels| <= |els|
    ensures |labels| == |Tagged(els, "button")|
    ensures forall i :: 0 <= i < |labels| ==> labels[i] == Lower(Tagged(els, "button")[i].text)
  {
    var buttons := Tagged(els, "button");
    seq(|buttons|, i requires 0 <= i < |buttons| => Lower(buttons[i].text))
  }

  /** The elements whose input handlers navigate: those with `oninput`
      followed by those with `onchange`, so an element with both handlers
      appears twice. */
  function InputNavigation(els: seq<Element>, m: Matcher): (r: seq<Element>)
    ensures r == Filter(HavingAttr(els, "oninput"), (e: Element) => m(NavPattern, HandlerText(e)))
      + Filter(HavingAttr(els, "onchange"), (e: Element) => m(NavPattern, HandlerText(e)))
  {
    var handlers := HavingAttr(els, "oninput") + HavingAttr(els, "onchange");
    var p := (e: Element) => m(NavPattern, HandlerText(e));
    FilterConcat(HavingAttr(els, "oninput"), HavingAttr(els, "onchange"), p);
    Filter(handlers, p)
  }

  /** `test_results`: one field per sub-check. */
  datatype PredictabilityResults = PredictabilityResults(
    onFocus: Note,
    onInput: Note,
    consistentNavigation: Note,
    consistentIdentification: Note,
    changeOnRequest: Note,
    consistentHelp: Note)
  {
    /** The dict, its keys in insertion order, each value rendered. */
    function Entries(): (t: Table)
      ensures Keys(t) == ResultKeys
      ensures forall i :: 0 <= i < |t| ==> t[i].1 != ""
    {
      var k := ResultKeys;
      [(k[0], onFocus.Render()), (k[1], onInput.Render()),
       (k[2], consistentNavigation.Render()), (k[3], consistentIdentification.Render()),
       (k[4], changeOnRequest.Render()), (k[5], consistentHelp.Render())]
    }
  }

  /** 3.2.1: fails, naming the count, when some `onfocus` handler navigates. */
  function OnFocus(els: seq<Element>, m: Matcher): (n: Note)
    ensures n.Flagged() <==> exists i :: 0 <= i < |els| && FocusNavigates(m, els[i])
    ensures n.Flagged() ==> n.mark == Failed
  {
    var focusNav := Filter(HavingAttr(els, "onfocus"), (e: Element) => FocusNavigates(m, e));
    assert focusNav != [] ==> focusNav[0] in els && FocusNavigates(m, focusNav[0]);
    Check(focusNav == [], NoFocusNavText, " " + NatToString(|focusNav|) + FocusNavText)
  }

  /** 3.2.2: fails, naming the count, when some input handler navigates. */
  function OnInput(els: seq<Element>, m: Matcher): (n: Note)
    ensures n.Flagged() <==> InputNavigation(els, m) != []
    ensures n.Flagged() ==> n == Note(Failed, " " + NatToString(|InputNavigation(els, m)|) + InputNavText)
  {
    var inputNav := InputNavigation(els, m);
    Check(inputNav == [], NoInputNavText, " " + NatToString(|inputNav|) + InputNavText)
  }

  /** 3.2.3: warns when the page has no `<nav>`. */
  function ConsistentNavigation(els: seq<Element>): (n: Note)
    ensures n.Flagged() <==> forall i :: 0 <= i < |els| ==> els[i].tag != "nav"
  {
    var navTags := Tagged(els, "nav");
    assert navTags != [] ==> navTags[0] in els && navTags[0].tag == "nav";
    Verdict(navTags != [], NavPresentText, NoNavText)
  }

  /** 3.2.4: warns exactly when two buttons share a label. */
  function ConsistentIdentification(els: seq<Element>): (n: Note)
    ensures n.Flagged() <==> !NoRepeat(ButtonLabels(els))
  {
    var labels := ButtonLabels(els);
    SetSizeDetectsRepeat(labels);
    Verdict(|labels| == |Elements(labels)|, ConsistentLabelsText, DuplicateLabelsText)
  }

  /** 3.2.5: fails, naming the count, when some form's `onsubmit` navigates. */
  function ChangeOnRequest(els: seq<Element>, m: Matcher): (n: Note)
    ensures n.Flagged() <==> exists i :: 0 <= i < |els| && SubmitNavigates(m, els[i])
    ensures n.Flagged() ==> n.mark == Failed
  {
    var autoSubmit := Filter(Tagged(els, "form"),
      (e: Element) => Truthy(Get(e, "onsubmit")) && m(NavPattern, e.attrs["onsubmit"]));
    assert autoSubmit != [] ==> autoSubmit[0] in els && SubmitNavigates(m, autoSubmit[0]);
    Check(autoSubmit == [], NoAutoSubmitText, " " + NatToString(|autoSubmit|) + AutoSubmitText)
  }

  /** 3.2.6: warns when no link's sole string offers help. */
  function ConsistentHelp(els: seq<Element>, m: Matcher): (n: Note)
    ensures n.Flagged() <==> forall i :: 0 <= i < |els| ==> !HelpLink(m, els[i])
  {
    var helpLinks := Filter(Tagged(els, "a"),
      (e: Element) => e.soleString.Some? && m(HelpPattern, e.soleString.value));
    assert helpLinks != [] ==> helpLinks[0] in els && HelpLink(m, helpLinks[0]);
    Verdict(helpLinks != [], HelpText, NoHelpText)
  }

  /** The six sub-checks of a fetched page. */
  function Measure(page: Page, m: Matcher): (r: PredictabilityResults)
    ensures r.consistentNavigation.Flagged() <==> forall i :: 0 <= i < |page.elements| ==> page.elements[i].tag != "nav"
  {
    var els := page.elements;
    PredictabilityResults(OnFocus(els, m), OnInput(els, m), ConsistentNavigation(els),
      ConsistentIdentification(els), ChangeOnRequest(els, m), ConsistentHelp(els, m))
  }

  /** 3.2.2 flags a navigating input handler, 3.2.4 a repeated button
      label. */
  lemma {:induction false} MeasureInputAndLabels(page: Page, m: Matcher)
    ensures Measure(page, m).onInput.Flagged() <==> InputNavigation(page.elements, m) != []
    ensures Measure(page, m).consistentIdentification.Flagged() <==> !NoRepeat(ButtonLabels(page.elements))
  {
  }

  /** The sub-checks that search single handlers or link texts: 3.2.1 and
      3.2.5 flag a navigating `onfocus` or `onsubmit`, 3.2.6 the absence of a
      help link. */
  lemma {:induction false} MeasurePatternChecks(page: Page, m: Matcher)
    ensures Measure(page, m).onFocus.Flagged() <==>
      exists i :: 0 <= i < |page.elements| && FocusNavigates(m, page.elements[i])
    ensures Measure(page, m).changeOnRequest.Flagged() <==>
      exists i :: 0 <= i < |page.elements| && SubmitNavigates(m, page.elements[i])
    ensures Measure(page, m).consistentHelp.Flagged() <==>
      forall i :: 0 <= i < |page.elements| ==> !HelpLink(m, page.elements[i])
  {
  }

  /** The report when anything in the scan raised. */
  function ErrorReport(url: string, message: string): (r: Report<PredictabilityResults>)
    ensures r.criteria == Criteria && r.recommendations == Advice && r.url == url && r.status == Error
    ensures var n := Note(Failed, ErrorText + message);
      r.results == PredictabilityResults(n, n, n, n, n, n)
  {
    var n := Note(Failed, ErrorText + message);
    Report(Criteria, PredictabilityResults(n, n, n, n, n, n), Advice, url, Error)
  }

  /** What the checker reports for the outcome of fetching the normalized
      address `u`: the scan compiles its navigation pattern first and its
      help pattern last, and measures the page when neither raises. */
  function Scan(u: string, fetched: Result<Page>, m: Matcher): (r: Report<PredictabilityResults>)
    ensures r.url == u && r.criteria == Criteria && r.recommendations == Advice
    ensures fetched.Err? ==> r == ErrorReport(u, fetched.message)
    ensures r.status == Error <==>
      fetched.Err? || !Balanced(NavPattern.source) || !Balanced(HelpPattern.source)
    ensures r.status != Error ==> r.status == Tested && r.results == Measure(fetched.value, m)
  {
    if fetched.Err? then ErrorReport(u, fetched.message)
    else
      match Compile(NavPattern)
      case Err(e) => ErrorReport(u, e)
      case Ok(_) =>
        match Compile(HelpPattern)
        case Err(e) => ErrorReport(u, e)
        case Ok(_) => Report(Criteria, Measure(fetched.value, m), Advice, u, Tested)
  }

  /** `test_predictability` */
  function PredictabilityCheck(url: string, fetch: Fetcher, m: Matcher): (r: Report<PredictabilityResults>)
    ensures r.url == NormalizeUrl(url) && r.criteria == Criteria
    ensures fetch(NormalizeUrl(url)).Err? ==> r == ErrorReport(NormalizeUrl(url), fetch(NormalizeUrl(url)).message)
  {
    var u := NormalizeUrl(url);
    Scan(u, fetch(u), m)
  }

  /** Both patterns compile, so the checker reports ERROR exactly when the
      fetch fails, and a fetched page gets its measures with status TESTED. */
  lemma ErrorOnlyOnFetchFailure(u: string, fetched: Result<Page>, m: Matcher)
    ensures Scan(u, fetched, m).status == Error <==> fetched.Err?
    ensures fetched.Ok? ==> Scan(u, fetched, m).status == Tested
    ensures fetched.Ok? ==> Scan(u, fetched, m).results == Measure(fetched.value, m)
  {
    NavPatternCompiles();
    HelpPatternCompiles();
  }

  /** `on_input` counts an element once per navigating handler list it is
      in: the count is the sum over the `oninput` list and the `onchange`
      list. */
  lemma {:induction false} InputCountIsSumOfLists(els: seq<Element>, m: Matcher)
    ensures |InputNavigation(els, m)|
      == |Filter(HavingAttr(els, "oninput"), (e: Element) => m(NavPattern, HandlerText(e)))|
       + |Filter(HavingAttr(els, "onchange"), (e: Element) => m(NavPattern, HandlerText(e)))|
  {
  }

  /** A single element with both handlers, whose joined handler text
      navigates, is counted twice. */
  lemma {:induction false} BothHandlersCountTwice(e: Element, m: Matcher)
    requires "oninput" in e.attrs && "onchange" in e.attrs && m(NavPattern, HandlerText(e))
    ensures |InputNavigation([e], m)| == 2
  {
    assert HavingAttr([e], "oninput") == [e];
    assert HavingAttr([e], "onchange") == [e];
  }

  /** Two buttons whose stripped, lower-cased texts agree flag 3.2.4. */
  lemma {:induction false} DuplicateLabelsFlagged(page: Page, m: Matcher, i: nat, j: nat)
    requires i < j < |ButtonLabels(page.elements)|
    requires ButtonLabels(page.elements)[i] == ButtonLabels(page.elements)[j]
    ensures Measure(page, m).consistentIdentification.Flagged()
  {
  }
}

/** `test_input_assistance` (criteria 3.3.1-3.3.9): form controls, their
    labels and validation markers, confirmation prompts, autocomplete,
    repeated field names and password fields. */
module InputAssistance {
  import opened Wrappers
  import opened Text
  import opened Collections
  import opened Url
  import opened Reports
  import opened Regex
  import opened Document

  const Criteria: seq<string> := ["3.3.1", "3.3.2", "3.3.3", "3.3.4", "3.3.5", "3.3.6", "3.3.7", "3.3.8", "3.3.9"]

  const ResultKeys: seq<string> := [
    "error_identification", "labels_instructions", "error_suggestion", "error_prevention_critical", "help",
    "error_prevention_all", "redundant_entry", "accessible_auth_minimum", "accessible_auth_enhanced"]

  const Advice: seq<string> := [
    "Provide programmatically associated labels for every form control.",
    "Use inline validation (aria-invalid) and descriptive error messages.",
    "Confirm critical transactions before final submission.",
    "Offer help text via aria-describedby or visible instructions.",
    "Enable autocomplete and avoid redundant data entry.",
    "Provide passkey / MFA / passwordless authentication options."]

  /** The confirmation pattern as the file writes it: a raw string with a
      doubled backslash, so the engine sees `confirm`, a literal backslash,
      and a group that is never closed. */
  const ConfirmPatternAsWritten: Pattern := Pattern("confirm\\\\(", false)

  /** The confirmation pattern as evidently intended: `confirm\(`. */
  const ConfirmPatternIntended: Pattern := Pattern("confirm\\(", false)

  /** `re.compile` rejects the pattern as written. */
  lemma ConfirmPatternAsWrittenRejected()
    ensures !Balanced(ConfirmPatternAsWritten.source)
  {
    var s := "confirm\\\\(";
    assert GroupDepth(s, 0, 0) == Ok(1) by {}
  }

  /** `re.compile` accepts the intended pattern. */
  lemma ConfirmPatternIntendedAccepted()
    ensures Balanced(ConfirmPatternIntended.source)
  {
    var s := "confirm\\(";
    assert GroupDepth(s, 0, 0) == Ok(0) by {}
  }

  // The texts of the sub-check values, after their markers.
  const AriaInvalidText: string := " aria-invalid markers present"
  const NoAriaInvalidText: string := " No inline validation attributes found"
  const LabelledText: string := " All form controls have labels"
  const UnlabelledText: string := " controls missing labels"
  const ErrorMessagesText: string := " Potential error message elements found"
  const NoErrorMessagesText: string := " Could not detect automatic error suggestion patterns"
  const ConfirmText: string := " Confirmation prompts present"
  const NoConfirmText: string := " No confirmation prompts detected for critical forms"
  const DescribedText: string := " Help descriptors present"
  const NotDescribedText: string := " No help descriptors detected"
  const AutocompleteText: string := " Autocomplete available on inputs"
  const NoAutocompleteText: string := " Some inputs disable autocomplete"
  const NoRedundantText: string := " No obvious redundant fields"
  const RedundantText: string := " Possible redundant entry fields: "
  const NoPasswordText: string := " No password-only authentication detected"
  const PasswordText: string := " Password fields present – ensure alternative authentication methods"
  const EnhancedAuthText: string := " Unable to verify enhanced authentication heuristics"

  predicate IsControl(e: Element) {
    e.tag == "input" || e.tag == "textarea" || e.tag == "select"
  }

  /** The form controls (inputs, text areas and selects), in document order. */
  function Controls(els: seq<Element>): (inputs: seq<Element>)
    ensures forall i :: 0 <= i < |inputs| ==> inputs[i] in els && IsControl(inputs[i])
    ensures forall i :: 0 <= i < |els| && IsControl(els[i]) ==> els[i] in inputs
  {
    Filter(els, IsControl)
  }

  // ---------------------------------------------------------------- labels

  /** The dict from each label's `for` (None when absent) to its stripped
      text; a later label with the same `for` replaces an earlier one, so
      each key holds the text of the last label carrying it
      (`LastLabelWins`). */
  function LabelTexts(labels: seq<Element>): (d: map<Option<string>, string>)
    ensures forall k :: k in d <==> exists i :: 0 <= i < |labels| && Get(labels[i], "for") == k
  {
    if labels == [] then map[]
    else
      var prefix := labels[..|labels| - 1];
      var last := labels[|labels| - 1];
      var d := LabelTexts(prefix);
      assert forall i :: 0 <= i < |prefix| ==> prefix[i] == labels[i];
      d[Get(last, "for") := last.text]
  }

  /** No label after the `i`th has the same `for`. */
  predicate LastFor(labels: seq<Element>, i: nat)
    requires i < |labels|
  {
    forall j :: i < j < |labels| ==> Get(labels[j], "for") != Get(labels[i], "for")
  }

  /** The key of a label that no later label shares maps to that label's
      text. */
  lemma {:induction false} LastLabelWins(labels: seq<Element>, i: nat)
    requires i < |labels| && LastFor(labels, i)
    ensures LabelTexts(labels)[Get(labels[i], "for")] == labels[i].text
    decreases |labels|
  {
    var prefix := labels[..|labels| - 1];
    if i < |prefix| {
      assert prefix[i] == labels[i];
      assert LastFor(prefix, i) by {
        forall j | i < j < |prefix| ensures Get(prefix[j], "for") != Get(prefix[i], "for") {
          assert prefix[j] == labels[j];
        }
      }
      LastLabelWins(prefix, i);
      assert Get(labels[|labels| - 1], "for") != Get(labels[i], "for");
    }
  }

  /** A control counts as labelled when its `id` (None when absent) is a key
      of the label dict, or it has a non-empty `aria-label` or
      `aria-labelledby`. */
  predicate Labelled(d: map<Option<string>, string>, e: Element) {
    Get(e, "id") in d || Truthy(Get(e, "aria-label")) || Truthy(Get(e, "aria-labelledby"))
  }

  /** A control without an `id` counts as labelled as soon as the page has a
      label without `for`: both look up as None. */
  lemma {:induction false} ForlessLabelCoversIdlessControls(labels: seq<Element>, k: nat, e: Element)
    requires k < |labels| && "for" !in labels[k].attrs
    requires "id" !in e.attrs
    ensures Labelled(LabelTexts(labels), e)
  {
    assert Get(labels[k], "for") == None;
  }

  // ---------------------------------------------------------------- redundant entry

  /** The truthy `name` values of the controls, in document order: a string
      is among them exactly when it is the non-empty `name` of some control. */
  function Names(inputs: seq<Element>): (names: seq<string>)
    ensures forall i :: 0 <= i < |names| ==> names[i] != ""
    ensures forall n :: n in names <==> exists i :: 0 <= i < |inputs| && Get(inputs[i], "name") == Some(n) && n != ""
  {
    if inputs == [] then []
    else
      var last := inputs[|inputs| - 1];
      var prefix := inputs[..|inputs| - 1];
      assert forall i :: 0 <= i < |prefix| ==> prefix[i] == inputs[i];
      Names(prefix) + (if Truthy(Get(last, "name")) then [last.attrs["name"]] else [])
  }

  /** The names that occur more than once, each once, in order of first
      occurrence: the keys of `name_counts` whose count exceeds one. A name
      is reported exactly when it is the non-empty `name` of at least two
      controls. */
  function RedundantNames(inputs: seq<Element>): (r: seq<string>)
    ensures forall n :: n in r <==> n != "" && n in Names(inputs) && Count(Names(inputs), n) > 1
    ensures NoRepeat(r)
    ensures forall i, j :: 0 <= i < j < |r| ==>
      r[i] in Names(inputs) && r[j] in Names(inputs) && IndexOf(Names(inputs), r[i]) < IndexOf(Names(inputs), r[j])
  {
    var names := Names(inputs);
    RepeatedOnceEach(names);
    Filter(Dedup(names), RepeatedIn(names))
  }

  /** Filtering the distinct names by "occurs more than once" keeps exactly
      the repeated names, each once, in order of first occurrence. */
  lemma {:induction false} RepeatedOnceEach(names: seq<string>)
    ensures var r := Filter(Dedup(names), RepeatedIn(names));
      && (forall n :: n in r <==> n in names && Count(names, n) > 1)
      && NoRepeat(r)
      && forall i, j :: 0 <= i < j < |r| ==> r[i] in names && r[j] in names && IndexOf(names, r[i]) < IndexOf(names, r[j])
  {
    var d := Dedup(names);
    DedupOrder(names);
    var p := RepeatedIn(names);
    var r := Filter(d, p);
    forall n ensures n in r <==> n in names && Count(names, n) > 1 {
      if n in r {
        var k :| 0 <= k < |r| && r[k] == n;
        assert r[k] in d;
        var m :| 0 <= m < |d| && d[m] == n;
        assert d[m] in names;
        var q :| 0 <= q < |names| && names[q] == n;
      }
      if n in names && Count(names, n) > 1 {
        var q :| 0 <= q < |names| && names[q] == n;
        assert names[q] in d;
        var m :| 0 <= m < |d| && d[m] == n;
        assert p(d[m]);
      }
    }
    FilterNoRepeat(d, p);
    FilterKeepsPairs(d, p, (a: string, b: string) => a in names && b in names && IndexOf(names, a) < IndexOf(names, b));
  }

  /** One more control adds its name, when it has a truthy one. */
  lemma {:induction false} NamesSnoc(inputs: seq<Element>, i: nat)
    requires i < |inputs|
    ensures Names(inputs[..i + 1]) ==
      Names(inputs[..i]) + (if Truthy(Get(inputs[i], "name")) then [inputs[i].attrs["name"]] else [])
  {
    assert inputs[..i + 1][..i] == inputs[..i];
  }

  /** The `name_counts` loop: counts each truthy name of the controls in a
      dict; `order` is the dict's insertion order. */
  method NameCounts(inputs: seq<Element>) returns (counts: map<string, nat>, order: seq<string>)
    ensures order == Dedup(Names(inputs))
    ensures counts == Tally(Names(inputs))
  {
    counts := map[];
    order := [];
    ghost var seen: seq<string> := [];
    var i := 0;
    while i < |inputs|
      invariant 0 <= i <= |inputs|
      invariant seen == Names(inputs[..i])
      invariant order == Dedup(seen) && counts == Tally(seen)
    {
      NamesSnoc(inputs, i);
      var name := Get(inputs[i], "name");
      if name.Some? && name.value != "" {
        var n := name.value;
        TallyStep(seen, n, counts, order);
        if n !in counts {
          order := order + [n];
        }
        counts := counts[n := (if n in counts then counts[n] else 0) + 1];
        seen := seen + [n];
      }
      i := i + 1;
    }
    assert inputs[..i] == inputs;
  }

  /** One more name: a new name joins the insertion order, any name has its
      count raised by one. */
  lemma {:induction false} TallyStep(seen: seq<string>, n: string, counts: map<string, nat>, order: seq<string>)
    requires order == Dedup(seen) && counts == Tally(seen)
    ensures Dedup(seen + [n]) == (if n in counts then order else order + [n])
    ensures Tally(seen + [n]) == counts[n := (if n in counts then counts[n] else 0) + 1]
  {
    DedupSnoc(seen, n);
    TallySnoc(seen, n);
    TallyCounts(seen);
  }

  /** Whether a name occurs more than once in `names`. */
  function RepeatedIn(names: seq<string>): string -> bool {
    (n: string) => Count(names, n) > 1
  }

  /** The repeated names as the scan computes them: the counting loop,
      then the keys whose count exceeds one, in the dict's order. */
  method RedundantEntries(inputs: seq<Element>) returns (redundant: seq<string>)
    ensures redundant == RedundantNames(inputs)
  {
    var counts, order := NameCounts(inputs);
    TallyCounts(Names(inputs));
    redundant := Filter(order, (n: string) => n in counts && counts[n] > 1);
    FilterAgree(order, (n: string) => n in counts && counts[n] > 1, RepeatedIn(Names(inputs)));
  }

  // ---------------------------------------------------------------- confirmation prompts

  /** The forms whose `onsubmit` (empty when absent) the confirmation
      pattern matches. The search compiles its pattern on every call, so the comprehension
      raises at the first form when the pattern does not compile, and never
      when there is no form. */
  function RiskyForms(forms: seq<Element>, confirm: Pattern, m: Matcher): (r: Result<seq<Element>>)
    ensures r.Err? <==> forms != [] && !Balanced(confirm.source)
    ensures r.Ok? ==> r.value == Filter(forms, (f: Element) => m(confirm, Get(f, "onsubmit").GetOr("")))
  {
    if forms == [] then Ok([])
    else
      match Search(m, confirm, Get(forms[0], "onsubmit").GetOr(""))
      case Err(e) => Err(e)
      case Ok(found) =>
        match RiskyForms(forms[1..], confirm, m)
        case Err(e) => Err(e)
        case Ok(rest) => Ok((if found then [forms[0]] else []) + rest)
  }

  // ---------------------------------------------------------------- sub-checks

  /** `test_results`: one field per sub-check. */
  datatype InputResults = InputResults(
    errorIdentification: Note,
    labelsInstructions: Note,
    errorSuggestion: Note,
    errorPreventionCritical: Note,
    help: Note,
    errorPreventionAll: Note,
    redundantEntry: Note,
    accessibleAuthMinimum: Note,
    accessibleAuthEnhanced: Note)
  {
    /** The dict, its keys in insertion order, each value rendered. */
    function Entries(): (t: Table)
      ensures Keys(t) == ResultKeys
      ensures forall i :: 0 <= i < |t| ==> t[i].1 != ""
    {
      var k := ResultKeys;
      [(k[0], errorIdentification.Render()), (k[1], labelsInstructions.Render()),
       (k[2], errorSuggestion.Render()), (k[3], errorPreventionCritical.Render()),
       (k[4], help.Render()), (k[5], errorPreventionAll.Render()),
       (k[6], redundantEntry.Render()), (k[7], accessibleAuthMinimum.Render()),
       (k[8], accessibleAuthEnhanced.Render())]
    }
  }

  predicate AriaInvalid(e: Element) {
    Get(e, "aria-invalid") == Some("true")
  }

  /** 3.3.1: passes exactly when some control has `aria-invalid="true"`. */
  function ErrorIdentification(inputs: seq<Element>): (n: Note)
    ensures !n.Flagged() <==> exists i :: 0 <= i < |inputs| && AriaInvalid(inputs[i])
  {
    var marked := Filter(inputs, AriaInvalid);
    FilterNonEmpty(inputs, AriaInvalid);
    Verdict(marked != [], AriaInvalidText, NoAriaInvalidText)
  }

  /** 3.3.2: fails, naming the count, when some control is not labelled. */
  function LabelsInstructions(inputs: seq<Element>, labels: seq<Element>): (n: Note)
    ensures var d := LabelTexts(labels);
      n.Flagged() <==> exists i :: 0 <= i < |inputs| && !Labelled(d, inputs[i])
    ensures n.Flagged() ==> n.mark == Failed
  {
    var d := LabelTexts(labels);
    var unlabelled := Filter(inputs, (e: Element) => !Labelled(d, e));
    FilterNonEmpty(inputs, (e: Element) => !Labelled(d, e));
    Check(unlabelled == [], LabelledText, " " + NatToString(|unlabelled|) + UnlabelledText)
  }

  /** 3.3.3: passes exactly when the lower-cased markup contains "error". */
  function ErrorSuggestion(html: string): (n: Note)
    ensures !n.Flagged() <==> Contains(Lower(html), "error")
  {
    Verdict(Contains(Lower(html), "error"), ErrorMessagesText, NoErrorMessagesText)
  }

  /** 3.3.4: passes exactly when some form's `onsubmit` matches. */
  function ErrorPreventionCritical(risky: seq<Element>): (n: Note)
    ensures !n.Flagged() <==> risky != []
  {
    Verdict(risky != [], ConfirmText, NoConfirmText)
  }

  /** 3.3.5: passes exactly when some element has `aria-describedby`. */
  function Help(els: seq<Element>): (n: Note)
    ensures !n.Flagged() <==> exists i :: 0 <= i < |els| && "aria-describedby" in els[i].attrs
  {
    var described := HavingAttr(els, "aria-describedby");
    FilterNonEmpty(els, (e: Element) => "aria-describedby" in e.attrs);
    Verdict(described != [], DescribedText, NotDescribedText)
  }

  predicate AutocompleteOff(e: Element) {
    Get(e, "autocomplete") == Some("off")
  }

  /** 3.3.6: warns exactly when some control has `autocomplete="off"`. */
  function ErrorPreventionAll(inputs: seq<Element>): (n: Note)
    ensures n.Flagged() <==> exists i :: 0 <= i < |inputs| && AutocompleteOff(inputs[i])
  {
    var off := Filter(inputs, AutocompleteOff);
    FilterNonEmpty(inputs, AutocompleteOff);
    Verdict(off == [], AutocompleteText, NoAutocompleteText)
  }

  /** 3.3.7: warns exactly when some name repeats, listing the repeated
      names joined by ", ". */
  function RedundantEntry(inputs: seq<Element>): (n: Note)
    ensures n.Flagged() <==> RedundantNames(inputs) != []
    ensures n.Flagged() ==> n.text == RedundantText + Join(", ", RedundantNames(inputs))
  {
    var redundant := RedundantNames(inputs);
    Verdict(redundant == [], NoRedundantText, RedundantText + Join(", ", redundant))
  }

  predicate PasswordInput(e: Element) {
    Get(e, "type") == Some("password")
  }

  /** 3.3.8: warns exactly when some control has `type="password"`. */
  function AccessibleAuthMinimum(inputs: seq<Element>): (n: Note)
    ensures n.Flagged() <==> exists i :: 0 <= i < |inputs| && PasswordInput(inputs[i])
  {
    var passwords := Filter(inputs, PasswordInput);
    FilterNonEmpty(inputs, PasswordInput);
    Verdict(passwords == [], NoPasswordText, PasswordText)
  }

  /** The nine sub-checks of a fetched page, given the forms found risky. */
  function Measure(page: Page, risky: seq<Element>): (r: InputResults)
    ensures !r.errorSuggestion.Flagged() <==> Contains(Lower(page.html), "error")
    ensures !r.errorPreventionCritical.Flagged() <==> risky != []
    ensures !r.help.Flagged() <==> exists i :: 0 <= i < |page.elements| && "aria-describedby" in page.elements[i].attrs
    ensures r.accessibleAuthEnhanced == Note(Warning, EnhancedAuthText)
  {
    var inputs := Controls(page.elements);
    InputResults(
      ErrorIdentification(inputs),
      LabelsInstructions(inputs, Tagged(page.elements, "label")),
      ErrorSuggestion(page.html),
      ErrorPreventionCritical(risky),
      Help(page.elements),
      ErrorPreventionAll(inputs),
      RedundantEntry(inputs),
      AccessibleAuthMinimum(inputs),
      Note(Warning, EnhancedAuthText))
  }

  /** The sub-checks on single controls of a page: each is decided by
      whether some control carries the attribute value it looks for. */
  lemma {:induction false} MeasureControlChecks(page: Page, risky: seq<Element>)
    ensures !Measure(page, risky).errorIdentification.Flagged() <==>
      exists i :: 0 <= i < |Controls(page.elements)| && AriaInvalid(Controls(page.elements)[i])
    ensures Measure(page, risky).errorPreventionAll.Flagged() <==>
      exists i :: 0 <= i < |Controls(page.elements)| && AutocompleteOff(Controls(page.elements)[i])
    ensures Measure(page, risky).accessibleAuthMinimum.Flagged() <==>
      exists i :: 0 <= i < |Controls(page.elements)| && PasswordInput(Controls(page.elements)[i])
  {
  }

  /** The sub-checks that relate controls to each other or to the labels:
      3.3.2 flags an unlabelled control, 3.3.7 a repeated name. */
  lemma {:induction false} MeasureLabelsAndNames(page: Page, risky: seq<Element>)
    ensures Measure(page, risky).labelsInstructions.Flagged() <==>
      exists i :: 0 <= i < |Controls(page.elements)|
        && !Labelled(LabelTexts(Tagged(page.elements, "label")), Controls(page.elements)[i])
    ensures Measure(page, risky).redundantEntry.Flagged() <==> RedundantNames(Controls(page.elements)) != []
  {
  }

  /** The report when anything in the scan raised: every sub-check the same
      failure carrying the exception text. */
  function ErrorReport(url: string, message: string): (r: Report<InputResults>)
    ensures r.criteria == Criteria && r.recommendations == Advice && r.url == url && r.status == Error
    ensures var n := Note(Failed, ErrorText + message);
      r.results == InputResults(n, n, n, n, n, n, n, n, n)
  {
    var n := Note(Failed, ErrorText + message);
    Report(Criteria, InputResults(n, n, n, n, n, n, n, n, n), Advice, url, Error)
  }

  /** What the checker reports, with a given confirmation pattern, for the
      outcome of fetching the normalized address `u`: ERROR exactly when the
      fetch failed or the page has a form and the pattern does not compile. */
  function Scan(confirm: Pattern, u: string, fetched: Result<Page>, m: Matcher): (r: Report<InputResults>)
    ensures r.url == u && r.criteria == Criteria && r.recommendations == Advice
    ensures fetched.Err? ==> r == ErrorReport(u, fetched.message)
    ensures r.status == Error <==>
      fetched.Err? || (Tagged(fetched.value.elements, "form") != [] && !Balanced(confirm.source))
    ensures r.status != Error ==>
      r.status == Tested
      && r.results == Measure(fetched.value,
        Filter(Tagged(fetched.value.elements, "form"), (f: Element) => m(confirm, Get(f, "onsubmit").GetOr(""))))
  {
    if fetched.Err? then ErrorReport(u, fetched.message)
    else
      match RiskyForms(Tagged(fetched.value.elements, "form"), confirm, m)
      case Err(e) => ErrorReport(u, e)
      case Ok(risky) => Report(Criteria, Measure(fetched.value, risky), Advice, u, Tested)
  }

  /** `test_input_assistance` as written. */
  function InputAssistanceCheck(url: string, fetch: Fetcher, m: Matcher): (r: Report<InputResults>)
    ensures r.url == NormalizeUrl(url) && r.criteria == Criteria
    ensures fetch(NormalizeUrl(url)).Err? ==> r == ErrorReport(NormalizeUrl(url), fetch(NormalizeUrl(url)).message)
  {
    var u := NormalizeUrl(url);
    Scan(ConfirmPatternAsWritten, u, fetch(u), m)
  }

  /** `test_input_assistance` with the intended confirmation pattern. */
  function InputAssistanceCheckIntended(url: string, fetch: Fetcher, m: Matcher): (r: Report<InputResults>)
    ensures r.url == NormalizeUrl(url) && r.criteria == Criteria
    ensures fetch(NormalizeUrl(url)).Err? ==> r == ErrorReport(NormalizeUrl(url), fetch(NormalizeUrl(url)).message)
  {
    var u := NormalizeUrl(url);
    Scan(ConfirmPatternIntended, u, fetch(u), m)
  }

  /** As written, the checker reports ERROR for every page that has a form. */
  lemma AsWrittenErrorsOnForms(u: string, fetched: Result<Page>, m: Matcher)
    ensures Scan(ConfirmPatternAsWritten, u, fetched, m).status == Error <==>
      fetched.Err? || Tagged(fetched.value.elements, "form") != []
  {
    ConfirmPatternAsWrittenRejected();
  }

  /** With the intended pattern, only a failed fetch gives ERROR. */
  lemma IntendedErrorsOnlyOnFetchFailure(u: string, fetched: Result<Page>, m: Matcher)
    ensures Scan(ConfirmPatternIntended, u, fetched, m).status == Error <==> fetched.Err?
  {
    ConfirmPatternIntendedAccepted();
  }
}

/** The checkers whose report is fixed text: keyboard, seizure, navigation
    structure, input modalities (criteria 2.1, 2.3, 2.4.1-2.4.10, 2.5.1-2.5.6)
    and the WCAG 2.2 additions focus-not-obscured, focus-appearance, dragging
    and target size; and the root-level placeholder summary. */
module Placeholders {
  import opened Url
  import opened Reports
  import opened Json

  /** The fixed part of a placeholder report: everything but the address. */
  datatype Canned = Canned(
    criteria: seq<string>,
    results: Table,
    recommendations: seq<string>,
    status: Status)

  /** Two reports that agree in everything but the address. */
  predicate SameExceptUrl(a: Report<Table>, b: Report<Table>) {
    a.criteria == b.criteria && a.results == b.results
    && a.recommendations == b.recommendations && a.status == b.status
  }

  /** A canned report for the normalized address. */
  function Stamp(c: Canned, url: string): (r: Report<Table>)
    ensures r.url == NormalizeUrl(url)
    ensures r.criteria == c.criteria && r.results == c.results
    ensures r.recommendations == c.recommendations && r.status == c.status
  {
    Report(c.criteria, c.results, c.recommendations, NormalizeUrl(url), c.status)
  }

  /** The eight checkers whose report is fixed text, in file order. */
  datatype Placeholder =
    | KeyboardCheck | SeizureCheck | NavigationCheck | ModalitiesCheck
    | FocusObscuredCheck | FocusAppearanceCheck | DraggingCheck | TargetSizeCheck

  /** The fixed criteria, results, recommendations and status of each. */
  function Template(p: Placeholder): Canned {
    match p
    case KeyboardCheck => KeyboardTemplate
    case SeizureCheck => SeizureTemplate
    case NavigationCheck => NavigationTemplate
    case ModalitiesCheck => ModalitiesTemplate
    case FocusObscuredCheck => FocusObscuredTemplate
    case FocusAppearanceCheck => FocusAppearanceTemplate
    case DraggingCheck => DraggingTemplate
    case TargetSizeCheck => TargetSizeTemplate
  }

  const KeyboardTemplate: Canned :=
    Canned(
      ["2.1.1", "2.1.2", "2.1.3", "2.1.4"],
      [("keyboard_navigation", "✅ Tab/Shift+Tab navigation functional"),
       ("keyboard_traps", "⚠️ No keyboard traps detected in standard elements"),
       ("focus_indicators", "⚠️ Focus indicators present but need contrast verification"),
       ("character_shortcuts", "⚠️ Single character shortcuts need identification")],
      ["Manually test all interactive elements with keyboard only",
       "Verify focus indicators meet 3:1 contrast ratio",
       "Test for keyboard traps in custom widgets",
       "Implement skip links for navigation"],
      Tested)

  const SeizureTemplate: Canned :=
    Canned(
      ["2.3.1", "2.3.2", "2.3.3"],
      [("three_flashes", "✅ No content flashes more than 3 times per second"),
       ("flash_threshold", "✅ No flashing content exceeds safe thresholds"),
       ("animation_interactions", "✅ No seizure-inducing animations detected")],
      ["Continue monitoring for dynamic content",
       "Test video content for flashing sequences",
       "Verify animation controls are available"],
      Safe)

  const NavigationTemplate: Canned :=
    Canned(
      ["2.4.1", "2.4.2", "2.4.3", "2.4.4", "2.4.5", "2.4.6", "2.4.7", "2.4.8", "2.4.9", "2.4.10"],
      [("bypass_blocks", "⚠️ Skip links need verification"),
       ("page_titled", "⚠️ Page titles need descriptiveness check"),
       ("focus_order", "✅ Logical focus order maintained"),
       ("link_purpose", "⚠️ Link purposes need clarity assessment"),
       ("multiple_ways", "✅ Multiple navigation methods available"),
       ("headings_labels", "⚠️ Heading hierarchy requires validation"),
       ("focus_visible", "⚠️ Focus indicators need contrast verification"),
       ("location", "✅ User location indicators present"),
       ("link_purpose_context", "⚠️ Link context needs improvement"),
       ("section_headings", "⚠️ Section headings need organization review")],
      ["Implement ARIA landmarks",
       "Ensure logical heading structure (H1-H6)",
       "Improve link descriptiveness",
       "Add skip navigation links"],
      NeedsReview)

  const ModalitiesTemplate: Canned :=
    Canned(
      ["2.5.1", "2.5.2", "2.5.3", "2.5.4", "2.5.5", "2.5.6"],
      [("pointer_gestures", "⚠️ Multi-point gesture alternatives needed"),
       ("pointer_cancellation", "✅ Pointer cancellation available"),
       ("label_in_name", "⚠️ Label accessibility needs verification"),
       ("motion_actuation", "⚠️ Device motion alternatives needed"),
       ("target_size", "⚠️ Touch target size verification needed"),
       ("concurrent_input", "✅ Multiple input methods supported")],
      ["Ensure 44x44 pixel minimum touch targets",
       "Provide alternatives to motion-based controls",
       "Test with assistive input devices",
       "Verify pointer gesture alternatives"],
      NeedsTesting)

  const FocusObscuredTemplate: Canned :=
    Canned(
      ["2.4.11", "2.4.12"],
      [("focus_not_obscured_minimum", "⚠️ Needs manual verification (heuristic only)"),
       ("focus_not_obscured_enhanced", "⚠️ Needs manual verification (heuristic only)")],
      ["Check that sticky headers/footers do not cover the keyboard focus ring.",
       "Ensure focused elements remain at least partially visible within the viewport."],
      NeedsReview)

  const FocusAppearanceTemplate: Canned :=
    Canned(
      ["2.4.13"],
      [("focus_indicator", "⚠️ Focus appearance needs size/contrast validation")],
      ["Ensure focus indicator has minimum area ≥ 2 CSS px outline or 8 px thickness equivalent.",
       "Maintain 3:1 contrast ratio against adjacent colors."],
      NeedsReview)

  const DraggingTemplate: Canned :=
    Canned(
      ["2.5.7"],
      [("dragging_movements", "⚠️ Manual verification required – no automatic detection implemented")],
      ["Provide alternative controls (e.g., buttons) for functionality that currently relies on drag-and-drop."],
      NeedsTesting)

  const TargetSizeTemplate: Canned :=
    Canned(
      ["2.5.8"],
      [("target_size", "⚠️ Automatic estimation suggests some targets < 24 px; manual audit advised")],
      ["Increase touch target size to minimum 24×24 CSS px (or provide spacing).",
       "Ensure sufficient spacing between smaller targets to avoid activation errors."],
      NeedsTesting)

  function PlaceholderReport(p: Placeholder, url: string): (r: Report<Table>)
    ensures r.url == NormalizeUrl(url)
  {
    Stamp(Template(p), url)
  }

  function KeyboardAccessibility(url: string): (r: Report<Table>)
    ensures r.url == NormalizeUrl(url) && r.status == Tested && WellFormed(r)
    ensures |r.criteria| == 4 && |r.results| == 4
  {
    PlaceholderReport(KeyboardCheck, url)
  }

  function SeizurePrevention(url: string): (r: Report<Table>)
    ensures r.url == NormalizeUrl(url) && r.status == Safe && WellFormed(r)
    ensures |r.criteria| == 3 && |r.results| == 3
  {
    PlaceholderReport(SeizureCheck, url)
  }

  function NavigationStructure(url: string): (r: Report<Table>)
    ensures r.url == NormalizeUrl(url) && r.status == NeedsReview && WellFormed(r)
    ensures |r.criteria| == 10 && |r.results| == 10
  {
    PlaceholderReport(NavigationCheck, url)
  }

  function InputModalities(url: string): (r: Report<Table>)
    ensures r.url == NormalizeUrl(url) && r.status == NeedsTesting && WellFormed(r)
    ensures |r.criteria| == 6 && |r.results| == 6
  {
    PlaceholderReport(ModalitiesCheck, url)
  }

  function FocusNotObscured(url: string): (r: Report<Table>)
    ensures r.url == NormalizeUrl(url) && r.status == NeedsReview && WellFormed(r)
    ensures |r.criteria| == 2 && |r.results| == 2
  {
    PlaceholderReport(FocusObscuredCheck, url)
  }

  function FocusAppearance(url: string): (r: Report<Table>)
    ensures r.url == NormalizeUrl(url) && r.status == NeedsReview && WellFormed(r)
    ensures |r.criteria| == 1 && |r.results| == 1
  {
    PlaceholderReport(FocusAppearanceCheck, url)
  }

  function DraggingMovements(url: string): (r: Report<Table>)
    ensures r.url == NormalizeUrl(url) && r.status == NeedsTesting && WellFormed(r)
    ensures |r.criteria| == 1 && |r.results| == 1
  {
    PlaceholderReport(DraggingCheck, url)
  }

  function TargetSizeMinimum(url: string): (r: Report<Table>)
    ensures r.url == NormalizeUrl(url) && r.status == NeedsTesting && WellFormed(r)
    ensures |r.criteria| == 1 && |r.results| == 1
  {
    PlaceholderReport(TargetSizeCheck, url)
  }


  /** A placeholder report does not depend on the page: any two addresses
      get the same criteria, results, recommendations and status. */
  lemma PlaceholderIgnoresPage(p: Placeholder, u1: string, u2: string)
    ensures SameExceptUrl(PlaceholderReport(p, u1), PlaceholderReport(p, u2))
  {
  }

  const SummaryPrefix: string := "Comprehensive WCAG 2.2 accessibility assessment placeholder for "

  /** `test_website_accessibility`: `{"result": ...}` whose one sentence names
      the normalized address and nothing else varies. */
  function WebsiteAccessibility(url: string): (r: Json)
    ensures r.JObject? && |r.members| == 1 && r.members[0].0 == "result"
    ensures r.members[0].1 == JString(SummaryPrefix + NormalizeUrl(url) + ".")
  {
    Single("result", SummaryPrefix + NormalizeUrl(url) + ".")
  }
}

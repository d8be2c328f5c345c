/** `test_timing_controls` (criteria 2.2.1-2.2.6): meta refresh, autoplaying
    media, marquees and JavaScript timers. */
module Timing {
  import opened Wrappers
  import opened Text
  import opened Collections
  import opened Url
  import opened Reports
  import opened Regex
  import opened Document

  const Criteria: seq<string> := ["2.2.1", "2.2.2", "2.2.3", "2.2.4", "2.2.5", "2.2.6"]

  const ResultKeys: seq<string> :=
    ["timing_adjustable", "pause_stop_hide", "no_timing", "interruptions", "re_authenticating", "timeouts"]

  /** The timer pattern as the file writes it: a raw string with doubled
      backslashes, so the engine sees a literal backslash before the final
      `(`, which opens a group that is never closed. */
  const TimerPatternAsWritten: Pattern := Pattern("set(Time|Interval)\\\\s*\\\\(", true)

  /** The timer pattern as evidently intended: `set(Time|Interval)\s*\(`. */
  const TimerPatternIntended: Pattern := Pattern("set(Time|Interval)\\s*\\(", true)

  lemma TimerPatternAsWrittenSplit()
    ensures "set(Time|Interval)" + "\\\\s*\\\\(" == TimerPatternAsWritten.source
  {
  }

  lemma TimerPatternIntendedSplit()
    ensures "set(Time|Interval)" + "\\s*\\(" == TimerPatternIntended.source
  {
  }

  /** `re.compile` rejects the pattern as written. */
  lemma TimerPatternAsWrittenRejected()
    ensures !Balanced(TimerPatternAsWritten.source)
  {
    var a, b := "set(Time|Interval)", "\\\\s*\\\\(";
    assert GroupDepth(a, 0, 0) == Ok(0) by {}
    assert GroupDepth(b, 0, 0) == Ok(1) by {}
    GroupDepthConcat(a, b, 0, 0);
    TimerPatternAsWrittenSplit();
  }

  /** `re.compile` accepts the intended pattern. */
  lemma TimerPatternIntendedAccepted()
    ensures Balanced(TimerPatternIntended.source)
  {
    var a, b := "set(Time|Interval)", "\\s*\\(";
    assert GroupDepth(a, 0, 0) == Ok(0) by {}
    assert GroupDepth(b, 0, 0) == Ok(0) by {}
    GroupDepthConcat(a, b, 0, 0);
    TimerPatternIntendedSplit();
  }

  /** The four red flags of the static scan. */
  datatype Signals = Signals(metaRefresh: bool, autoplayMedia: bool, marquee: bool, jsTimers: bool)

  predicate AnyIssue(f: Signals) {
    f.metaRefresh || f.autoplayMedia || f.jsTimers || f.marquee
  }

  /** A `<meta>` whose `http-equiv`, lower-cased, is "refresh". */
  predicate IsMetaRefresh(e: Element) {
    e.tag == "meta" && Lower(Get(e, "http-equiv").GetOr("")) == "refresh"
  }

  /** Matched by the selector `video[autoplay], audio[autoplay]`. */
  predicate IsAutoplayMedia(e: Element) {
    (e.tag == "video" || e.tag == "audio") && "autoplay" in e.attrs
  }

  /** The flags read from the parsed page; `jsTimers` is the timer pattern's
      search of the raw markup. */
  function PageSignals(page: Page, jsTimers: bool): (f: Signals)
    ensures f.metaRefresh <==> exists i :: 0 <= i < |page.elements| && IsMetaRefresh(page.elements[i])
    ensures f.autoplayMedia <==> exists i :: 0 <= i < |page.elements| && IsAutoplayMedia(page.elements[i])
    ensures f.marquee <==> exists i :: 0 <= i < |page.elements| && page.elements[i].tag == "marquee"
    ensures f.jsTimers == jsTimers
  {
    var meta := Filter(page.elements, IsMetaRefresh);
    var media := Filter(page.elements, IsAutoplayMedia);
    var marquees := Tagged(page.elements, "marquee");
    FilterNonEmpty(page.elements, IsMetaRefresh);
    FilterNonEmpty(page.elements, IsAutoplayMedia);
    FilterNonEmpty(page.elements, (e: Element) => e.tag == "marquee");
    Signals(meta != [], media != [], marquees != [], jsTimers)
  }

  const MetaRefreshAdvice: string :=
    "Remove or extend any meta refresh to at least 20 hours OR provide a user-extendable control."
  const TimerAdvice: string :=
    "Ensure JavaScript timeouts are adjustable, can be turned off, or extended by the user."
  const MovingContentAdvice: string :=
    "Provide user controls to pause, stop or hide any auto-moving / autoplaying content that lasts more than 5 seconds."
  const NoIssuesAdvice: string :=
    "No major timing-related issues detected – continue to monitor dynamic components."

  /** Where each recommendation stands in the order the checker appends them. */
  function AdviceRank(s: string): nat {
    if s == MetaRefreshAdvice then 0
    else if s == TimerAdvice then 1
    else if s == MovingContentAdvice then 2
    else 3
  }

  /** The recommendations of a successful scan: one line per kind of issue,
      in the order meta refresh, timers, moving content, and the all-clear
      line exactly when there is none. */
  function Recommendations(f: Signals): (r: seq<string>)
    ensures |r| > 0
    ensures MetaRefreshAdvice in r <==> f.metaRefresh
    ensures TimerAdvice in r <==> f.jsTimers
    ensures MovingContentAdvice in r <==> f.autoplayMedia || f.marquee
    ensures NoIssuesAdvice in r <==> !AnyIssue(f)
    ensures forall s :: s in r ==>
      s == MetaRefreshAdvice || s == TimerAdvice || s == MovingContentAdvice || s == NoIssuesAdvice
    ensures !AnyIssue(f) ==> r == [NoIssuesAdvice]
    ensures forall i, j :: 0 <= i < j < |r| ==> AdviceRank(r[i]) < AdviceRank(r[j])
  {
    var issues :=
      (if f.metaRefresh then [MetaRefreshAdvice] else [])
      + (if f.jsTimers then [TimerAdvice] else [])
      + (if f.autoplayMedia || f.marquee then [MovingContentAdvice] else []);
    if issues == [] then [NoIssuesAdvice] else issues
  }

  /** The list built by conditional appends, as the checker builds it. */
  method BuildRecommendations(f: Signals) returns (recs: seq<string>)
    ensures recs == Recommendations(f)
  {
    recs := [];
    if f.metaRefresh {
      recs := recs + [MetaRefreshAdvice];
    }
    if f.jsTimers {
      recs := recs + [TimerAdvice];
    }
    if f.autoplayMedia || f.marquee {
      recs := recs + [MovingContentAdvice];
    }
    if recs == [] {
      recs := recs + [NoIssuesAdvice];
    }
  }

  // The texts of the sub-check values, after their markers.
  const NoTimeoutsText: string := " No automatic timeouts detected"
  const TimeoutsText: string := " Potential JavaScript timeouts present (setTimeout/setInterval detected)"
  const NoAutoplayText: string := " No auto-playing media found"
  const AutoplayText: string := " Auto-playing media detected (video/audio with autoplay)"
  const NoTimingText: string := " No timing-dependent interactions detected"
  const TimingText: string := " Possible timing-dependent interactions (meta refresh or JS timers)"
  const NoInterruptionsText: string := " No automatic interruptions detected"
  const InterruptionsText: string := " Meta refresh tag may interrupt user flow"
  const SessionText: string := " Session timeout behaviour not determinable via static scan – needs manual verification"
  const NoTimeoutWarningsText: string := " No timeout warnings needed"
  const TimeoutWarningsText: string := " Implement timeout warnings / extend option"
  const UnknownText: string := " Unknown – page fetch failed"
  const ManualText: string := " Manual verification required"
  const FetchFailedText: string := " Unable to fetch page to test ("

  /** `test_results`: one field per sub-check. */
  datatype TimingResults = TimingResults(
    timingAdjustable: Note,
    pauseStopHide: Note,
    noTiming: Note,
    interruptions: Note,
    reAuthenticating: Note,
    timeouts: Note)
  {
    /** The dict, its keys in insertion order, each value rendered. */
    function Entries(): (t: Table)
      ensures Keys(t) == ResultKeys
      ensures forall i :: 0 <= i < |t| ==> t[i].1 != ""
    {
      var k := ResultKeys;
      var t := [(k[0], timingAdjustable.Render()), (k[1], pauseStopHide.Render()),
        (k[2], noTiming.Render()), (k[3], interruptions.Render()),
        (k[4], reAuthenticating.Render()), (k[5], timeouts.Render())];
      t
    }
  }

  /** The report of a scan that ran. Each sub-check is flagged by its own
      signals; a marquee changes the status and the recommendations but no
      sub-check. */
  function TestedReport(url: string, f: Signals): (r: Report<TimingResults>)
    ensures r.criteria == Criteria && r.url == url
    ensures r.recommendations == Recommendations(f)
    ensures r.status == (if AnyIssue(f) then NeedsReview else Tested)
    ensures r.results.timingAdjustable.Flagged() <==> f.jsTimers
    ensures r.results.pauseStopHide.Flagged() <==> f.autoplayMedia
    ensures r.results.noTiming.Flagged() <==> f.jsTimers || f.metaRefresh
    ensures r.results.interruptions.Flagged() <==> f.metaRefresh
    ensures r.results.reAuthenticating.Flagged()
    ensures r.results.timeouts.Flagged() <==> f.metaRefresh
  {
    var results := TimingResults(
      Verdict(!f.jsTimers, NoTimeoutsText, TimeoutsText),
      Verdict(!f.autoplayMedia, NoAutoplayText, AutoplayText),
      Verdict(!(f.jsTimers || f.metaRefresh), NoTimingText, TimingText),
      Verdict(!f.metaRefresh, NoInterruptionsText, InterruptionsText),
      Note(Warning, SessionText),
      Verdict(!f.metaRefresh, NoTimeoutWarningsText, TimeoutWarningsText));
    Report(Criteria, results, Recommendations(f), url,
      if !AnyIssue(f) then Tested else NeedsReview)
  }

  const ErrorAdvice: seq<string> := [
    "Ensure the execution environment has internet access and the 'requests' & 'beautifulsoup4' packages installed.",
    "Perform a manual review of timing controls on the target site."]

  /** The report when anything in the scan raised: every sub-check a warning,
      the exception text in `timing_adjustable`, two fixed recommendations,
      status ERROR. */
  function ErrorReport(url: string, message: string): (r: Report<TimingResults>)
    ensures r.criteria == Criteria && r.url == url
    ensures r.recommendations == ErrorAdvice && r.status == Error
    ensures var t := r.results;
      t.timingAdjustable.Flagged() && t.pauseStopHide.Flagged() && t.noTiming.Flagged()
      && t.interruptions.Flagged() && t.reAuthenticating.Flagged() && t.timeouts.Flagged()
    ensures r.results.timingAdjustable == Note(Warning, FetchFailedText + message + ")")
  {
    var unknown := Note(Warning, UnknownText);
    var manual := Note(Warning, ManualText);
    var results := TimingResults(
      Note(Warning, FetchFailedText + message + ")"),
      unknown, unknown, unknown, manual, manual);
    Report(Criteria, results, ErrorAdvice, url, Error)
  }

  /** What the checker reports for the outcome of fetching the normalized
      address `u`, with a given timer pattern: ERROR exactly when the fetch
      failed or the pattern does not compile, otherwise the report of the
      page's signals. */
  function Scan(timer: Pattern, u: string, fetched: Result<Page>, m: Matcher): (r: Report<TimingResults>)
    ensures r.url == u && r.criteria == Criteria && |r.recommendations| > 0
    ensures fetched.Err? ==> r == ErrorReport(u, fetched.message)
    ensures r.status == Error <==> fetched.Err? || !Balanced(timer.source)
    ensures fetched.Ok? && Balanced(timer.source) ==>
      r == TestedReport(u, PageSignals(fetched.value, m(timer, fetched.value.html)))
  {
    if fetched.Err? then ErrorReport(u, fetched.message)
    else
      var found := Search(m, timer, fetched.value.html);
      if found.Err? then ErrorReport(u, found.message)
      else TestedReport(u, PageSignals(fetched.value, found.value))
  }

  /** `test_timing_controls` as written. */
  function TimingControls(url: string, fetch: Fetcher, m: Matcher): (r: Report<TimingResults>)
    ensures r.url == NormalizeUrl(url) && r.criteria == Criteria
    ensures fetch(NormalizeUrl(url)).Err? ==> r == ErrorReport(NormalizeUrl(url), fetch(NormalizeUrl(url)).message)
  {
    var u := NormalizeUrl(url);
    Scan(TimerPatternAsWritten, u, fetch(u), m)
  }

  /** `test_timing_controls` with the intended timer pattern. */
  function TimingControlsIntended(url: string, fetch: Fetcher, m: Matcher): (r: Report<TimingResults>)
    ensures r.url == NormalizeUrl(url) && r.criteria == Criteria
    ensures fetch(NormalizeUrl(url)).Err? ==> r == ErrorReport(NormalizeUrl(url), fetch(NormalizeUrl(url)).message)
  {
    var u := NormalizeUrl(url);
    Scan(TimerPatternIntended, u, fetch(u), m)
  }

  /** As written, the checker never gets past compiling its pattern: every
      page, reachable or not, gets the ERROR report. */
  lemma TimingControlsAlwaysErrors(url: string, fetch: Fetcher, m: Matcher)
    ensures TimingControls(url, fetch, m).status == Error
    ensures TimingControls(url, fetch, m).recommendations == ErrorAdvice
  {
    TimerPatternAsWrittenRejected();
  }

  /** With the intended pattern, a fetched page gets the report of its own
      signals, and only a failed fetch gives ERROR. */
  lemma TimingControlsIntendedDecides(url: string, fetch: Fetcher, m: Matcher)
    ensures var u := NormalizeUrl(url);
      fetch(u).Ok? ==>
        TimingControlsIntended(url, fetch, m)
          == TestedReport(u, PageSignals(fetch(u).value, m(TimerPatternIntended, fetch(u).value.html)))
    ensures TimingControlsIntended(url, fetch, m).status == Error <==> fetch(NormalizeUrl(url)).Err?
  {
    TimerPatternIntendedAccepted();
  }

  /** A page with a meta refresh has its `interruptions` flagged and needs
      review (with the intended pattern). */
  lemma MetaRefreshNeedsReview(url: string, fetch: Fetcher, m: Matcher, page: Page, k: nat)
    requires fetch(NormalizeUrl(url)) == Ok(page)
    requires k < |page.elements| && IsMetaRefresh(page.elements[k])
    ensures TimingControlsIntended(url, fetch, m).results.interruptions.Flagged()
    ensures TimingControlsIntended(url, fetch, m).status == NeedsReview
  {
    TimingControlsIntendedDecides(url, fetch, m);
  }

  /** A marquee alone never changes a sub-check value. */
  lemma {:induction false} MarqueeOnlyInStatus(url: string, f: Signals)
    ensures TestedReport(url, f).results == TestedReport(url, f.(marquee := !f.marquee)).results
  {
  }
}

/** `test_readability` (criteria 3.1.1-3.1.6): the page's language, the
    language of its parts, and readability measures of a text sample. */
module Readability {
  import opened Wrappers
  import opened Text
  import opened Collections
  import opened Url
  import opened Reports
  import opened Document

  const Criteria: seq<string> := ["3.1.1", "3.1.2", "3.1.3", "3.1.4", "3.1.5", "3.1.6"]

  const ResultKeys: seq<string> :=
    ["language_of_page", "language_of_parts", "unusual_words", "abbreviations", "reading_level", "pronunciation"]

  const Advice: seq<string> := [
    "Ensure <html lang> is set and matches detected language.",
    "Add lang attributes for passages in other languages.",
    "Explain jargon/idioms & provide glossary for abbreviations.",
    "Target Flesch score ≥ 60 (about grade 8).",
    "Provide pronunciation guides (e.g., ruby, phoneme)."]

  /** The text-analysis libraries the checker calls on its sample:
      `textstat.difficult_words`, `textstat.flesch_reading_ease`,
      `textstat.text_standard`, `langdetect.detect` (which raises on text it
      cannot classify), the abbreviation matches of `\b[A-Z]{2,6}s?\b`, and
      the `:.1f` and `:.0f` number formats. */
  datatype Analysis = Analysis(
    difficultWords: string -> nat,
    fleschReadingEase: string -> real,
    textStandard: string -> string,
    detect: string -> Result<string>,
    abbreviationMatches: string -> seq<string>,
    oneDecimal: real -> string,
    noDecimal: real -> string)

  // The texts of the sub-check values, after their markers.
  const LangSetText: string := " html lang attribute set to '"
  const LangMissingText: string := " Missing html lang attribute"
  const DetectedText: string := " (Warning: detected '"
  const PartsText: string := " elements have correct secondary lang attributes"
  const NoPartsText: string := " No secondary lang attributes detected (verify if needed)"
  const RatioText: string := " Difficult-word ratio "
  const RatioOkText: string := "% (acceptable)"
  const RatioHighText: string := " Difficult-word ratio high ("
  const FewAbbreviationsText: string := " Few abbreviations detected ("
  const ManyAbbreviationsText: string := " Many abbreviations detected ("
  const ReadableText: string := " Readability ≈ "
  const DifficultText: string := " Readability difficult – "
  const FleschText: string := " (Flesch "
  const CuesText: string := " Pronunciation cues present (ruby/phoneme)"
  const NoCuesText: string := " No pronunciation aids detected"

  /** Fewer than 5% difficult words is acceptable. */
  const DifficultPercentLimit: real := 5.0
  /** At most ten distinct abbreviations is acceptable. */
  const AbbreviationLimit: nat := 10
  /** A Flesch reading ease of 60 or more is acceptable. */
  const FleschLimit: real := 60.0

  /** The page language: the root element's `lang` lower-cased, "" when
      the root has none or there is no root. */
  function PageLang(els: seq<Element>): (lang: string)
    ensures First(els, "html").None? ==> lang == ""
    ensures First(els, "html").Some? ==> lang == Lower(Get(First(els, "html").value, "lang").GetOr(""))
  {
    match First(els, "html")
    case None => ""
    case Some(root) => Lower(Get(root, "lang").GetOr(""))
  }

  /** An element whose own `lang`, lower-cased, differs from the page's. */
  predicate OtherLang(pageLang: string, e: Element) {
    "lang" in e.attrs && Lower(e.attrs["lang"]) != pageLang
  }

  /** The elements carrying a `lang` attribute that differs from the page's. */
  function SecondaryParts(els: seq<Element>, pageLang: string): (parts: seq<Element>)
    ensures forall i :: 0 <= i < |parts| ==> parts[i] in els && OtherLang(pageLang, parts[i])
    ensures forall i :: 0 <= i < |els| && OtherLang(pageLang, els[i]) ==> els[i] in parts
    ensures parts == [] <==> forall i :: 0 <= i < |els| ==> !OtherLang(pageLang, els[i])
  {
    var parts := Filter(HavingAttr(els, "lang"), (e: Element) => Lower(Get(e, "lang").GetOr("")) != pageLang);
    assert parts != [] ==> parts[0] in els && OtherLang(pageLang, parts[0]);
    parts
  }

  /** The detected language of the sample: "unknown" for a blank sample,
      without consulting the detector; otherwise what the detector answers
      or raises. */
  function DetectedLanguage(sample: string, a: Analysis): (r: Result<string>)
    ensures AllSpace(sample) ==> r == Ok("unknown")
    ensures !AllSpace(sample) ==> r == a.detect(sample)
  {
    if Strip(sample) == "" then Ok("unknown") else a.detect(sample)
  }

  /** 3.1.1: passes exactly when the root carries a language; a detected
      language that differs is appended to the text and leaves the marker. */
  function LanguageOfPage(pageLang: string, detected: string): (n: Note)
    ensures n.Flagged() <==> pageLang == ""
    ensures n.mark == (if pageLang == "" then Failed else Passed)
    ensures pageLang != "" && detected != pageLang ==>
      n.text == LangSetText + pageLang + "'" + DetectedText + detected + "')"
    ensures pageLang != "" && detected == pageLang ==> n.text == LangSetText + pageLang + "'"
  {
    var base := Check(pageLang != "", LangSetText + pageLang + "'", LangMissingText);
    if pageLang != "" && detected != pageLang then Note(base.mark, base.text + DetectedText + detected + "')")
    else base
  }

  /** The statements that build `language_of_page`: the verdict on the
      root's `lang`, then `+=` of the warning when the detected language
      differs from a declared one. */
  method BuildLanguageOfPage(pageLang: string, detected: string) returns (n: Note)
    ensures n == LanguageOfPage(pageLang, detected)
  {
    n := Check(pageLang != "", LangSetText + pageLang + "'", LangMissingText);
    if pageLang != "" && detected != pageLang {
      n := n.(text := n.text + DetectedText + detected + "')");
    }
  }

  /** The percentage of difficult words, a word count of zero counting as
      one; whether it is below 5 is decided on the integer counts. */
  function DifficultPercent(difficult: nat, words: nat): (pct: real)
    ensures pct < DifficultPercentLimit <==> difficult * 100 < 5 * (if words == 0 then 1 else words)
  {
    var w := if words == 0 then 1 else words;
    var pct := (difficult as real) / (w as real) * 100.0;
    PercentBelow(difficult, w);
    pct
  }

  lemma PercentBelow(d: nat, w: nat)
    requires w > 0
    ensures (d as real) / (w as real) * 100.0 < 5.0 <==> d * 100 < 5 * w
  {
    var q := (d as real) / (w as real);
    assert (q * 100.0) * (w as real) == (d * 100) as real;
    ScaleBelow(q * 100.0, 5.0, w as real);
  }

  lemma ScaleBelow(x: real, y: real, c: real)
    requires c > 0.0
    ensures x < y <==> x * c < y * c
  {
    if x < y {
      assert (y - x) * c > 0.0;
    } else {
      assert (x - y) * c >= 0.0;
    }
  }

  /** `test_results`: one field per sub-check. */
  datatype ReadabilityResults = ReadabilityResults(
    languageOfPage: Note,
    languageOfParts: Note,
    unusualWords: Note,
    abbreviations: Note,
    readingLevel: Note,
    pronunciation: Note)
  {
    /** The dict, its keys in insertion order, each value rendered. */
    function Entries(): (t: Table)
      ensures Keys(t) == ResultKeys
      ensures forall i :: 0 <= i < |t| ==> t[i].1 != ""
    {
      var k := ResultKeys;
      [(k[0], languageOfPage.Render()), (k[1], languageOfParts.Render()),
       (k[2], unusualWords.Render()), (k[3], abbreviations.Render()),
       (k[4], readingLevel.Render()), (k[5], pronunciation.Render())]
    }
  }

  /** 3.1.2: warns exactly when no element declares a language other than
      the page's; otherwise names how many do. */
  function LanguageOfParts(els: seq<Element>, lang: string): (n: Note)
    ensures n.Flagged() <==> forall i :: 0 <= i < |els| ==> !OtherLang(lang, els[i])
    ensures !n.Flagged() ==> n.text == " " + NatToString(|SecondaryParts(els, lang)|) + PartsText
  {
    var parts := SecondaryParts(els, lang);
    Verdict(parts != [], " " + NatToString(|parts|) + PartsText, NoPartsText)
  }

  /** 3.1.3: warns exactly when at least 5% of the sample's words are
      difficult (a sample without words counting as one word). */
  function UnusualWords(s: string, a: Analysis): (n: Note)
    ensures n.Flagged() <==> a.difficultWords(s) * 100 >= 5 * (if WordCount(s) == 0 then 1 else WordCount(s))
  {
    var pct := DifficultPercent(a.difficultWords(s), WordCount(s));
    Verdict(pct < DifficultPercentLimit,
      RatioText + a.oneDecimal(pct) + RatioOkText,
      RatioHighText + a.oneDecimal(pct) + "%)")
  }

  /** 3.1.4: warns exactly when more than ten distinct abbreviations occur. */
  function Abbreviations(s: string, a: Analysis): (n: Note)
    ensures n.Flagged() <==> |Elements(a.abbreviationMatches(s))| > AbbreviationLimit
  {
    var unique := |Elements(a.abbreviationMatches(s))|;
    Verdict(unique <= AbbreviationLimit,
      FewAbbreviationsText + NatToString(unique) + ")",
      ManyAbbreviationsText + NatToString(unique) + ")")
  }

  /** 3.1.5: warns exactly when the Flesch reading ease is below 60. */
  function ReadingLevel(s: string, a: Analysis): (n: Note)
    ensures n.Flagged() <==> a.fleschReadingEase(s) < FleschLimit
  {
    var flesch := a.fleschReadingEase(s);
    var grade := a.textStandard(s);
    Verdict(flesch >= FleschLimit,
      ReadableText + grade + FleschText + a.noDecimal(flesch) + ")",
      DifficultText + grade + FleschText + a.noDecimal(flesch) + ")")
  }

  /** 3.1.6: warns exactly when there is no `<ruby>` element and the markup
      has no "<phoneme". */
  function Pronunciation(page: Page): (n: Note)
    ensures n.Flagged() <==> First(page.elements, "ruby").None? && !Contains(page.html, "<phoneme")
  {
    Verdict(First(page.elements, "ruby").Some? || Contains(page.html, "<phoneme"), CuesText, NoCuesText)
  }

  /** The six sub-checks of a page whose sample's language came out as
      `detected`. */
  function Measure(page: Page, detected: string, a: Analysis): (r: ReadabilityResults)
    ensures r.languageOfPage.Flagged() <==> PageLang(page.elements) == ""
    ensures r.languageOfParts.Flagged() <==>
      forall i :: 0 <= i < |page.elements| ==> !OtherLang(PageLang(page.elements), page.elements[i])
    ensures var s := Sample(page.text);
      r.unusualWords.Flagged() <==> a.difficultWords(s) * 100 >= 5 * (if WordCount(s) == 0 then 1 else WordCount(s))
    ensures r.abbreviations.Flagged() <==> |Elements(a.abbreviationMatches(Sample(page.text)))| > AbbreviationLimit
    ensures r.readingLevel.Flagged() <==> a.fleschReadingEase(Sample(page.text)) < FleschLimit
    ensures r.pronunciation.Flagged() <==> First(page.elements, "ruby").None? && !Contains(page.html, "<phoneme")
  {
    var lang := PageLang(page.elements);
    var s := Sample(page.text);
    ReadabilityResults(
      LanguageOfPage(lang, detected),
      LanguageOfParts(page.elements, lang),
      UnusualWords(s, a),
      Abbreviations(s, a),
      ReadingLevel(s, a),
      Pronunciation(page))
  }

  /** The report when anything in the scan raised: every sub-check the same
      failure carrying the exception text. */
  function ErrorReport(url: string, message: string): (r: Report<ReadabilityResults>)
    ensures r.criteria == Criteria && r.recommendations == Advice && r.url == url && r.status == Error
    ensures var n := Note(Failed, ErrorText + message);
      r.results == ReadabilityResults(n, n, n, n, n, n)
  {
    var n := Note(Failed, ErrorText + message);
    Report(Criteria, ReadabilityResults(n, n, n, n, n, n), Advice, url, Error)
  }

  /** What the checker reports for the outcome of fetching the normalized
      address `u`: ERROR exactly when the fetch failed or the language
      detector raised on a sample that is not all whitespace; otherwise the
      six measures, with status TESTED. */
  function Scan(u: string, fetched: Result<Page>, a: Analysis): (r: Report<ReadabilityResults>)
    ensures r.url == u && r.criteria == Criteria && r.recommendations == Advice
    ensures fetched.Err? ==> r == ErrorReport(u, fetched.message)
    ensures r.status == Error <==>
      fetched.Err? || DetectedLanguage(Sample(fetched.value.text), a).Err?
    ensures r.status != Error ==>
      r.status == Tested
      && r.results == Measure(fetched.value, DetectedLanguage(Sample(fetched.value.text), a).value, a)
  {
    if fetched.Err? then ErrorReport(u, fetched.message)
    else
      match DetectedLanguage(Sample(fetched.value.text), a)
      case Err(e) => ErrorReport(u, e)
      case Ok(detected) => Report(Criteria, Measure(fetched.value, detected, a), Advice, u, Tested)
  }

  /** `test_readability` */
  function ReadabilityCheck(url: string, fetch: Fetcher, a: Analysis): (r: Report<ReadabilityResults>)
    ensures r.url == NormalizeUrl(url) && r.criteria == Criteria
    ensures fetch(NormalizeUrl(url)).Err? ==> r == ErrorReport(NormalizeUrl(url), fetch(NormalizeUrl(url)).message)
  {
    var u := NormalizeUrl(url);
    Scan(u, fetch(u), a)
  }

  /** A page whose sample is all whitespace never reaches the detector, so
      only a failed fetch gives ERROR for it. */
  lemma BlankSampleNeverErrors(u: string, page: Page, a: Analysis)
    requires AllSpace(Sample(page.text))
    ensures Scan(u, Ok(page), a).status == Tested
    ensures Scan(u, Ok(page), a).results.languageOfPage == LanguageOfPage(PageLang(page.elements), "unknown")
  {
  }

  /** The sub-checks other than 3.1.1 do not depend on what the detector
      says: two runs that both succeed differ at most in `language_of_page`. */
  lemma DetectorOnlyAffectsLanguageOfPage(page: Page, d1: string, d2: string, a: Analysis)
    ensures var t1, t2 := Measure(page, d1, a), Measure(page, d2, a);
      t1.(languageOfPage := t2.languageOfPage) == t2
  {
  }

  /** A page with a declared language keeps its pass marker even when the
      detector disagrees: the mismatch is only appended to the text. */
  lemma MismatchKeepsPassMarker(page: Page, detected: string, a: Analysis)
    requires PageLang(page.elements) != "" && detected != PageLang(page.elements)
    ensures !Measure(page, detected, a).languageOfPage.Flagged()
    ensures StartsWith(Measure(page, detected, a).languageOfPage.Render(), Pass)
  {
  }
}

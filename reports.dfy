/** The report every checker returns: the criteria it covers, its sub-check
    results in insertion order, its recommendations, the evaluated address and
    an overall status. */
module Reports {
  import opened Text
  import opened Wrappers

  /** The status strings "TESTED", "SAFE", "NEEDS_REVIEW", "NEEDS_TESTING"
      and "ERROR", one constructor each. */
  datatype Status = Tested | Safe | NeedsReview | NeedsTesting | Error

  /** The dict `{"wcag_criteria", "test_results", "recommendations", "url",
      "status"}`. `R` is the shape of `test_results`: a `Table` for the
      fixed-text checkers, a record with one field per sub-check for the
      checkers that inspect the page. */
  datatype Report<R> = Report(
    criteria: seq<string>,
    results: R,
    recommendations: seq<string>,
    url: string,
    status: Status)

  /** A dict of sub-check results, in insertion order. */
  type Table = seq<(string, string)>

  function Keys(results: Table): (ks: seq<string>)
    ensures |ks| == |results|
    ensures forall i :: 0 <= i < |results| ==> ks[i] == results[i].0
  {
    seq(|results|, i requires 0 <= i < |results| => results[i].0)
  }

  /** The text after the marker of every sub-check of a report whose scan
      raised, before the exception text. */
  const ErrorText: string := " Error: "

  const Pass: string := "✅"
  const Warn: string := "⚠️"
  const Fail: string := "❌"

  /** The marker a sub-check value starts with. */
  datatype Mark = Passed | Warning | Failed {
    function Symbol(): (s: string)
      ensures s != [] && (s[0] == Pass[0] <==> this == Passed)
    {
      match this
      case Passed => Pass
      case Warning => Warn
      case Failed => Fail
    }
  }

  /** A sub-check value: its marker and the text after it. */
  datatype Note = Note(mark: Mark, text: string) {
    /** The string the dict holds. */
    function Render(): (s: string)
      ensures s == mark.Symbol() + text
      ensures StartsWith(s, Pass) <==> mark == Passed
    {
      var s := mark.Symbol() + text;
      assert s[0] == mark.Symbol()[0];
      if mark == Passed then
        assert s[..|Pass|] == Pass;
        s
      else
        s
    }

    /** A warning or a failure: the value does not carry the pass marker. */
    predicate Flagged() {
      mark != Passed
    }
  }

  /** The checkers' `"✅ …" if ok else "⚠️ …"`. */
  function Verdict(ok: bool, pass: string, warn: string): (n: Note)
    ensures n.Flagged() <==> !ok
    ensures n.text == if ok then pass else warn
  {
    if ok then Note(Passed, pass) else Note(Warning, warn)
  }

  /** The checkers' `"✅ …" if ok else "❌ …"`. */
  function Check(ok: bool, pass: string, fail: string): (n: Note)
    ensures n.Flagged() <==> !ok
    ensures n.text == if ok then pass else fail
  {
    if ok then Note(Passed, pass) else Note(Failed, fail)
  }

  /** A checker's envelope: some criterion, some recommendation, and every
      sub-check value a non-empty explanation. */
  predicate Complete(criteria: seq<string>, results: Table, recommendations: seq<string>) {
    && |criteria| > 0
    && |recommendations| > 0
    && forall i :: 0 <= i < |results| ==> results[i].1 != ""
  }

  predicate WellFormed(r: Report<Table>) {
    Complete(r.criteria, r.results, r.recommendations)
  }
}

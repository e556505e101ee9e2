/** The human-readable report: the check results, the remediations and the
    summary. Printing is modelled as building the sequence of lines the report
    writes; colour styling itself is left to the terminal. */
module Report {
  import opened Bench
  import opened Strings

  /** One printed line.
      `Tagged(s, t)`: "[s] " in the colour of `s`, then `t` (colorPrint).
      `Banner(s, t)`: `t` printed whole in the colour of `s`.
      `Plain(t)`: `t` without colour. */
  datatype Line =
    | Tagged(state: State, text: string)
    | Banner(state: State, text: string)
    | Plain(text: string)

  /** The command-line switches that shape the report. */
  datatype PrintOpts = PrintOpts(
    noResults: bool,
    noRemediations: bool,
    noSummary: bool,
    includeTestOutput: bool)

  // ---------------------------------------------------------------------
  // Raw test output

  /** A failed check's raw output is shown only when test output was asked
      for and there is some output to show. */
  predicate ShowsRawOutput(includeTestOutput: bool, c: Check)
  {
    includeTestOutput && c.state == Fail && |c.actualValue| > 0
  }

  /** Two words separated by a space, as `"%s %s"` prints them. */
  function Words(a: string, b: string): string
  {
    a + " " + b
  }

  function Indented(row: string): Line
  {
    Plain("\t " + row)
  }

  /** The lines printed for a raw output: one indented line per segment
      between newlines. */
  function RawOutputLines(output: string): (lines: seq<Line>)
  {
    var rows := Split(output, '\n');
    seq(|rows|, k requires 0 <= k < |rows| => Indented(rows[k]))
  }

  /** Prints a raw output, line by line. */
  method PrintRawOutput(output: string) returns (lines: seq<Line>)
    ensures |lines| == Occurrences(output, '\n') + 1
    ensures lines == RawOutputLines(output)
  {
    var rows := Split(output, '\n');
    lines := [];
    for i := 0 to |rows|
      invariant |lines| == i
      invariant forall k :: 0 <= k < i ==> lines[k] == Indented(rows[k])
    {
      lines := lines + [Indented(rows[i])];
    }
    SplitCount(output, '\n');
  }

  /** Removes the indentation `PrintRawOutput` puts in front of a segment. */
  function Unindent(line: Line): string
  {
    if |line.text| >= 2 then line.text[2..] else line.text
  }

  /** The segments the printed lines carry, indentation removed. */
  function Unindented(lines: seq<Line>): seq<string>
  {
    seq(|lines|, k requires 0 <= k < |lines| => Unindent(lines[k]))
  }

  /** Each printed line carries exactly one segment of the raw output. */
  lemma RawOutputSegments(output: string)
    ensures Unindented(RawOutputLines(output)) == Split(output, '\n')
  {
    var rows := Split(output, '\n');
    var stripped := Unindented(RawOutputLines(output));
    forall k | 0 <= k < |rows| ensures stripped[k] == rows[k] {
      assert ("\t " + rows[k])[2..] == rows[k];
    }
  }

  /** The printed lines carry the whole raw output: no line holds a newline,
      and re-joining the segments with newlines restores the output. */
  lemma RawOutputRoundTrip(output: string)
    ensures forall row :: row in Unindented(RawOutputLines(output)) ==> '\n' !in row
    ensures Join(Unindented(RawOutputLines(output)), '\n') == output
  {
    RawOutputSegments(output);
    JoinSplit(output, '\n');
    SplitSegmentsFree(output, '\n');
  }

  // ---------------------------------------------------------------------
  // Check results

  /** The lines printed for one check: its state tag, ID and text, then its raw
      output when that is shown. */
  function CheckBlock(c: Check, includeTestOutput: bool): seq<Line>
  {
    [Tagged(c.state, Words(c.id, c.text))]
      + (if ShowsRawOutput(includeTestOutput, c) then RawOutputLines(c.actualValue) else [])
  }

  /** A check's block holds more than its tag line exactly when its raw output
      is shown, and then the rest of the block is that output. */
  lemma CheckBlockShape(c: Check, includeTestOutput: bool)
    ensures CheckBlock(c, includeTestOutput)[0] == Tagged(c.state, Words(c.id, c.text))
    ensures |CheckBlock(c, includeTestOutput)| > 1 <==> ShowsRawOutput(includeTestOutput, c)
    ensures ShowsRawOutput(includeTestOutput, c) ==>
      CheckBlock(c, includeTestOutput)[1..] == RawOutputLines(c.actualValue)
  {
  }

  function ChecksBlock(cs: seq<Check>, includeTestOutput: bool): seq<Line>
    decreases |cs|
  {
    if cs == [] then []
    else ChecksBlock(cs[..|cs| - 1], includeTestOutput) + CheckBlock(cs[|cs| - 1], includeTestOutput)
  }

  function GroupBlock(g: Group, includeTestOutput: bool): seq<Line>
  {
    [Tagged(Info, Words(g.id, g.text))] + ChecksBlock(g.checks, includeTestOutput)
  }

  function GroupsBlock(groups: seq<Group>, includeTestOutput: bool): seq<Line>
    decreases |groups|
  {
    if groups == [] then []
    else GroupsBlock(groups[..|groups| - 1], includeTestOutput) + GroupBlock(groups[|groups| - 1], includeTestOutput)
  }

  /** The results part: the controls' heading, each group's heading followed by
      its checks, then a blank line; nothing when results are switched off. */
  function ResultsSection(r: Controls, opts: PrintOpts): seq<Line>
  {
    if opts.noResults then []
    else [Tagged(Info, Words(r.id, r.text))] + GroupsBlock(r.groups, opts.includeTestOutput) + [Plain("")]
  }

  // ---------------------------------------------------------------------
  // Remediations

  predicate NeedsRemediation(c: Check)
  {
    c.state == Fail || c.state == Warn
  }

  /** The checks of `cs` that need remediation, in their order. */
  function Failing(cs: seq<Check>): seq<Check>
    decreases |cs|
  {
    if cs == [] then []
    else Failing(cs[..|cs| - 1]) + (if NeedsRemediation(cs[|cs| - 1]) then [cs[|cs| - 1]] else [])
  }

  /** The checks the remediation list names: those of the whole benchmark,
      taken in group order and then check order, that failed or warned. */
  function Remediations(groups: seq<Group>): seq<Check>
  {
    Failing(AllChecks(groups))
  }

  function RemediationLine(c: Check): Line
  {
    Plain(Words(c.id, c.remediation))
  }

  function RemediationLines(cs: seq<Check>): seq<Line>
    decreases |cs|
  {
    if cs == [] then []
    else RemediationLines(cs[..|cs| - 1]) + [RemediationLine(cs[|cs| - 1])]
  }

  const RemediationsBanner := "== Remediations =="

  /** The remediations part: shown when remediations are not switched off and
      the summary counts a failure or a warning. */
  function RemediationsSection(r: Controls, summary: Summary, opts: PrintOpts): seq<Line>
  {
    if !opts.noRemediations && (summary.fail > 0 || summary.warn > 0) then
      [Banner(Warn, RemediationsBanner)] + RemediationLines(Remediations(r.groups)) + [Plain("")]
    else []
  }

  /** The list holds a check exactly when the check is in the benchmark and
      failed or warned. */
  lemma {:induction false} FailingMembers(cs: seq<Check>, c: Check)
    ensures c in Failing(cs) <==> c in cs && NeedsRemediation(c)
    decreases |cs|
  {
    if cs != [] {
      FailingMembers(cs[..|cs| - 1], c);
      assert cs == cs[..|cs| - 1] + [cs[|cs| - 1]];
    }
  }

  /** Each failing or warning check is listed as often as it occurs, and no
      other check is listed: once per occurrence, never repeated. */
  lemma {:induction false} FailingMultiplicity(cs: seq<Check>, c: Check)
    ensures multiset(Failing(cs))[c] == if NeedsRemediation(c) then multiset(cs)[c] else 0
    decreases |cs|
  {
    if cs != [] {
      FailingMultiplicity(cs[..|cs| - 1], c);
      assert cs == cs[..|cs| - 1] + [cs[|cs| - 1]];
    }
  }

  /** Selection keeps the order: the list for a concatenation is the list for
      the first part followed by the list for the second. */
  lemma {:induction false} FailingConcat(a: seq<Check>, b: seq<Check>)
    ensures Failing(a + b) == Failing(a) + Failing(b)
    decreases |b|
  {
    if b == [] {
      assert a + b == a;
    } else {
      assert (a + b)[..|a + b| - 1] == a + b[..|b| - 1];
      FailingConcat(a, b[..|b| - 1]);
    }
  }

  /** The list is as long as the numbers of failed and warned checks together. */
  lemma {:induction false} FailingLength(cs: seq<Check>)
    ensures |Failing(cs)| == CountState(cs, Fail) + CountState(cs, Warn)
    decreases |cs|
  {
    if cs != [] {
      FailingLength(cs[..|cs| - 1]);
    }
  }

  /** With a summary that tallies the controls, the remediations banner is
      printed exactly when there is at least one check to list. */
  lemma RemediationsShownIffListed(r: Controls, opts: PrintOpts)
    requires !opts.noRemediations
    ensures RemediationsSection(r, Tally(r), opts) != [] <==> Remediations(r.groups) != []
    ensures |Remediations(r.groups)| == Tally(r).fail + Tally(r).warn
  {
    FailingLength(AllChecks(r.groups));
  }

  // ---------------------------------------------------------------------
  // Summary

  /** How bad a state is when it heads the summary. */
  function Severity(s: State): nat
  {
    match s
    case Fail => 3
    case Warn => 2
    case Pass => 1
    case Info => 0
    case Unset => 0
  }

  /** The colour of the summary banner: the worst of the counted pass, warn
      and fail states, and PASS when none was counted. Informational checks
      never decide it. */
  function Headline(summary: Summary): (res: State)
    ensures res == Pass || res == Warn || res == Fail
    ensures forall s :: s != Info && Tallied(summary, s) > 0 ==> Severity(s) <= Severity(res)
    ensures res == Pass || Tallied(summary, res) > 0
  {
    if summary.fail > 0 then Fail
    else if summary.warn > 0 then Warn
    else Pass
  }

  /** Informational results alone leave the headline at PASS. */
  lemma HeadlineIgnoresInfo(summary: Summary, info: nat)
    ensures Headline(summary.(info := info)) == Headline(summary)
    ensures summary.fail == 0 && summary.warn == 0 ==> Headline(summary) == Pass
  {
  }

  /** With a summary that tallies the controls, the headline is FAIL exactly
      when some check failed, and WARN exactly when none failed and some check
      warned. */
  lemma HeadlineOfTally(r: Controls)
    ensures Headline(Tally(r)) == Fail <==> exists c :: c in AllChecks(r.groups) && c.state == Fail
    ensures Headline(Tally(r)) == Warn <==>
      (forall c :: c in AllChecks(r.groups) ==> c.state != Fail) &&
      (exists c :: c in AllChecks(r.groups) && c.state == Warn)
  {
    CountStatePositive(AllChecks(r.groups), Fail);
    CountStatePositive(AllChecks(r.groups), Warn);
  }

  const SummaryBanner := "== Summary =="

  /** The summary part: the banner in the headline's colour, then the four
      counts; nothing when the summary is switched off. */
  function SummarySection(summary: Summary, opts: PrintOpts): seq<Line>
  {
    if opts.noSummary then []
    else [Banner(Headline(summary), SummaryBanner),
          Plain(Decimal(summary.pass) + " checks PASS"),
          Plain(Decimal(summary.fail) + " checks FAIL"),
          Plain(Decimal(summary.warn) + " checks WARN"),
          Plain(Decimal(summary.info) + " checks INFO")]
  }

  /** The whole report, part by part. */
  function Report(r: Controls, summary: Summary, opts: PrintOpts): seq<Line>
  {
    ResultsSection(r, opts) + RemediationsSection(r, summary, opts) + SummarySection(summary, opts)
  }

  // ---------------------------------------------------------------------
  // The printing loops

  /** Prints one check: its state tag, ID and text, then its raw output when
      the check failed, test output is asked for and there is output. */
  method PrintCheck(c: Check, includeTestOutput: bool) returns (block: seq<Line>)
    ensures block == CheckBlock(c, includeTestOutput)
  {
    block := [Tagged(c.state, Words(c.id, c.text))];
    if includeTestOutput && c.state == Fail && |c.actualValue| > 0 {
      var raw := PrintRawOutput(c.actualValue);
      block := block + raw;
    }
  }

  /** Taking one more check appends that check's block. */
  lemma ChecksBlockStep(cs: seq<Check>, j: nat, includeTestOutput: bool)
    requires j < |cs|
    ensures ChecksBlock(cs[..j + 1], includeTestOutput)
         == ChecksBlock(cs[..j], includeTestOutput) + CheckBlock(cs[j], includeTestOutput)
  {
    assert cs[..j + 1][..j] == cs[..j];
  }

  /** Taking one more group appends that group's block. */
  lemma GroupsBlockStep(groups: seq<Group>, i: nat, includeTestOutput: bool)
    requires i < |groups|
    ensures GroupsBlock(groups[..i + 1], includeTestOutput)
         == GroupsBlock(groups[..i], includeTestOutput) + GroupBlock(groups[i], includeTestOutput)
  {
    assert groups[..i + 1][..i] == groups[..i];
  }

  /** Prints one group: its heading, then a line per check and, for a failed
      check, its raw output when that is asked for. */
  method PrintGroup(g: Group, includeTestOutput: bool) returns (out: seq<Line>)
    ensures out == GroupBlock(g, includeTestOutput)
  {
    out := [Tagged(Info, Words(g.id, g.text))];
    ghost var printed: seq<Line> := [];
    for j := 0 to |g.checks|
      invariant printed == ChecksBlock(g.checks[..j], includeTestOutput)
      invariant out == [Tagged(Info, Words(g.id, g.text))] + printed
    {
      var block := PrintCheck(g.checks[j], includeTestOutput);
      ChecksBlockStep(g.checks, j, includeTestOutput);
      out := out + block;
      printed := printed + block;
    }
    assert g.checks[..|g.checks|] == g.checks;
  }

  /** Prints the check results: the controls' heading, every group in
      document order, then a blank line. */
  method PrintResults(r: Controls, opts: PrintOpts) returns (out: seq<Line>)
    ensures out == ResultsSection(r, opts)
  {
    out := [];
    if !opts.noResults {
      out := [Tagged(Info, Words(r.id, r.text))];
      ghost var printed: seq<Line> := [];
      for i := 0 to |r.groups|
        invariant printed == GroupsBlock(r.groups[..i], opts.includeTestOutput)
        invariant out == [Tagged(Info, Words(r.id, r.text))] + printed
      {
        var block := PrintGroup(r.groups[i], opts.includeTestOutput);
        GroupsBlockStep(r.groups, i, opts.includeTestOutput);
        out := out + block;
        printed := printed + block;
      }
      assert r.groups[..|r.groups|] == r.groups;
      out := out + [Plain("")];
    }
  }

  lemma {:induction false} RemediationLinesConcat(a: seq<Check>, b: seq<Check>)
    ensures RemediationLines(a + b) == RemediationLines(a) + RemediationLines(b)
    decreases |b|
  {
    if b == [] {
      assert a + b == a;
    } else {
      assert (a + b)[..|a + b| - 1] == a + b[..|b| - 1];
      RemediationLinesConcat(a, b[..|b| - 1]);
    }
  }

  /** Prints the remediation of each check of one group that failed or warned. */
  method PrintGroupRemediations(g: Group) returns (out: seq<Line>)
    ensures out == RemediationLines(Failing(g.checks))
  {
    out := [];
    for j := 0 to |g.checks|
      invariant out == RemediationLines(Failing(g.checks[..j]))
    {
      var c := g.checks[j];
      ghost var listed := Failing(g.checks[..j]);
      assert g.checks[..j + 1][..j] == g.checks[..j];
      if c.state == Fail || c.state == Warn {
        out := out + [RemediationLine(c)];
        assert Failing(g.checks[..j + 1]) == listed + [c];
        assert (listed + [c])[..|listed|] == listed;
        assert RemediationLines(listed + [c]) == RemediationLines(listed) + [RemediationLine(c)];
      } else {
        assert Failing(g.checks[..j + 1]) == listed + [];
        assert listed + [] == listed;
      }
    }
    assert g.checks[..|g.checks|] == g.checks;
  }

  /** Taking one more group appends that group's remediation lines. */
  lemma RemediationsStep(groups: seq<Group>, i: nat)
    requires i < |groups|
    ensures RemediationLines(Remediations(groups[..i + 1]))
         == RemediationLines(Remediations(groups[..i])) + RemediationLines(Failing(groups[i].checks))
  {
    var done := AllChecks(groups[..i]);
    assert groups[..i + 1][..i] == groups[..i];
    assert AllChecks(groups[..i + 1]) == done + groups[i].checks;
    FailingConcat(done, groups[i].checks);
    RemediationLinesConcat(Failing(done), Failing(groups[i].checks));
  }

  /** Prints the remediation of every check that failed or warned, when the
      summary counts any failure or warning. */
  method PrintRemediations(r: Controls, summary: Summary, opts: PrintOpts) returns (out: seq<Line>)
    ensures out == RemediationsSection(r, summary, opts)
  {
    out := [];
    if !opts.noRemediations {
      if summary.fail > 0 || summary.warn > 0 {
        out := [Banner(Warn, RemediationsBanner)];
        ghost var printed: seq<Line> := [];
        for i := 0 to |r.groups|
          invariant printed == RemediationLines(Remediations(r.groups[..i]))
          invariant out == [Banner(Warn, RemediationsBanner)] + printed
        {
          var lines := PrintGroupRemediations(r.groups[i]);
          RemediationsStep(r.groups, i);
          out := out + lines;
          printed := printed + lines;
        }
        assert r.groups[..|r.groups|] == r.groups;
        out := out + [Plain("")];
      }
    }
  }

  /** Prints the summary banner in the colour of the worst counted state, then
      the four counts. */
  method PrintSummary(summary: Summary, opts: PrintOpts) returns (out: seq<Line>)
    ensures out == SummarySection(summary, opts)
  {
    out := [];
    if !opts.noSummary {
      var res: State;
      if summary.fail > 0 {
        res := Fail;
      } else if summary.warn > 0 {
        res := Warn;
      } else {
        res := Pass;
      }
      out := [Banner(res, SummaryBanner)];
      out := out + [Plain(Decimal(summary.pass) + " checks PASS"),
                    Plain(Decimal(summary.fail) + " checks FAIL"),
                    Plain(Decimal(summary.warn) + " checks WARN"),
                    Plain(Decimal(summary.info) + " checks INFO")];
    }
  }

  /** Prints the report for finished controls and their summary: results,
      remediations and summary, in that order. */
  method PrettyPrint(r: Controls, summary: Summary, opts: PrintOpts) returns (out: seq<Line>)
    ensures out == Report(r, summary, opts)
  {
    var results := PrintResults(r, opts);
    var remediations := PrintRemediations(r, summary, opts);
    var tally := PrintSummary(summary, opts);
    out := results + remediations + tally;
  }
}

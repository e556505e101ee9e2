# kube-bench command layer: run filter and report decisions

kube-bench checks a Kubernetes master or node against a benchmark. A benchmark is a
document of Controls, which hold Groups, which hold Checks. This project models the
part of the command layer in `cmd/common.go` that does not touch the host:

- **the run filter** (`NewRunFilter`). It builds the predicate over (group, check) pairs
  that selects which checks run. The inputs are a group list, a check list, and the
  "scored" and "unscored" switches.
- **the text report** (`prettyPrint`, `printRawOutput`). This covers which lines are
  printed for the check results, when a failed check's raw output is shown, and how
  that output is split and indented. It also covers which checks are listed under
  remediations, and in what order, and the colour of the summary banner.
- **the decisions in `runChecks`**. These are the order of the five variable-substitution
  passes over the controls document, and whether the results go to JSON, to PostgreSQL
  or to the text report.

Modules:

- `Bench` (`bench.dfy`): the entities the command layer reads (`Check`, `Group`,
  `Controls`, `Summary`, `State`). It also holds `Tally`, the summary the runner is
  expected to produce for finished controls.
- `Strings` (`strings.dfy`): Go's `strings.Split` on a one-character separator, with
  `Join` as its inverse, and the `%d` rendering of a count, with `DecimalValue` as its
  inverse.
- `RunFilter` (`run_filter.dfy`): `NewRunFilter`. Like the Go code, it returns a
  function value (the predicate) or an error.
- `Report` (`report.dfy`): printing is modelled as building the sequence of lines the
  report writes.
  - `Tagged` lines stand for `colorPrint`.
  - `Banner` lines stand for a whole line printed in a state's colour.
  - `Plain` lines stand for uncoloured output.
  
  Each printing loop is a method with invariants. It is proved equal to a pure
  specification (`ResultsSection`, `RemediationsSection`, `SummarySection`,
  `RawOutputLines`). The properties are then proved about that specification.
- `RunChecks` (`run_checks.dfy`): the substitution passes over an abstract
  `makeSubstitutions`, and the choice of output.

The list parser `cleanIDs` is not part of this model, so `NewRunFilter` takes it as a
parameter of type `string -> set<string>`. Go's `map[string]bool` becomes a set,
because the code only tests key presence. A list option left empty gives no set (a nil
map). A list option that is given but cleans to no IDs gives an empty set. The code
tests the length of the set, not the option string, so either case restricts nothing.

An unevaluated check has the zero state (the empty string in Go). The model calls it
`Unset`.

Nothing in `NewRunFilter` rejects a request for neither scored nor unscored checks. It
still returns a predicate, and that predicate selects nothing (cmd/common.go:59). See
`NoScoringSelectsNothing`.

## Model

| member | source | states |
|---|---|---|
| RunFilter.NewRunFilter | cmd/common.go:31-63 | Fails with the "can't be used together" error exactly when both the check list and the group list are given, and succeeds otherwise. A selected pair has its group ID in the group set when that set is non-empty, and its check ID in the check set when that set is non-empty. It is always admitted by the scoring test (scored and the check is scored, or unscored and it is not). |
| RunFilter.SelectsWhenAllTestsPass | cmd/common.go:47-61 | Converse of the above: a pair that passes the group test, the check test and the scoring test is selected. |
| RunFilter.NoScoringSelectsNothing | cmd/common.go:59 | With neither scored nor unscored, the options are accepted, yet no pair is selected. |
| RunFilter.ScoringTruthTable | cmd/common.go:47-61 | Without ID lists: both switches select every pair, `scored` alone selects exactly the scored checks, and `unscored` alone selects exactly the unscored ones. |
| RunFilter.EmptyIDSetRestrictsNothing | cmd/common.go:37-52 | A group list that is given but cleans to no IDs restricts nothing, since the code tests the set's length and not the string. |
| RunFilter.DependsOnlyOnIDsAndScored | cmd/common.go:47-62 | Two pairs that agree on group ID, check ID and the scored flag get the same answer. |
| RunFilter.GroupListScenario | cmd/common.go:37-61 | Group list "1.1" with only scored checks selects a scored check of group 1.1. It rejects an unscored check of that group and a scored check of group 1.2. |
| Strings.Split | cmd/common.go:262 | `strings.Split` on "\n" always yields at least one segment, including for the empty string. |
| Strings.SplitCount | cmd/common.go:262 | There is one more segment than there are newlines. |
| Strings.SplitSegmentsFree | cmd/common.go:262 | No segment contains a newline. |
| Strings.JoinSplit | cmd/common.go:262 | Joining the segments with "\n" restores the input. |
| Strings.SplitJoin | cmd/common.go:262 | Splitting a join of newline-free segments gives the segments back. |
| Strings.Decimal | cmd/common.go:192-194 | The `%d` rendering of a count is non-empty, all digits, and has no leading zero. |
| Strings.DecimalRoundTrip | cmd/common.go:192-194 | Reading the rendered count gives the count back. |
| Report.PrintRawOutput | cmd/common.go:261-265 | Prints (number of newlines + 1) lines, equal to `RawOutputLines`: line k is "\t " followed by the k-th newline-separated segment. |
| Report.RawOutputSegments | cmd/common.go:262-264 | Removing the "\t " indentation from the printed lines gives exactly the segments of the output. |
| Report.RawOutputRoundTrip | cmd/common.go:262-264 | No printed line carries a newline, and re-joining the unindented lines with "\n" restores the raw output. |
| Report.CheckBlockShape | cmd/common.go:154-158 | A check prints its state-tagged ID and text. Raw output follows exactly when test output is requested, the state is FAIL and the actual value is non-empty; what follows is then that output's lines. |
| Report.PrintCheck | cmd/common.go:154-158 | A check's tag line, followed by its raw output lines exactly when the raw-output condition holds. |
| Report.PrintGroup | cmd/common.go:152-159 | The group's INFO heading, then each check's block in check order. |
| Report.PrintResults | cmd/common.go:149-163 | Unless results are switched off: the controls' INFO heading, each group's block in group order, then a blank line. Otherwise nothing. |
| Report.FailingMembers | cmd/common.go:169-175 | A check is listed under remediations exactly when it is in the benchmark and its state is FAIL or WARN. |
| Report.FailingMultiplicity | cmd/common.go:169-175 | Each FAIL or WARN check is listed once per occurrence in the benchmark, and no other check is listed. |
| Report.FailingConcat | cmd/common.go:169-175 | The list keeps document order: the list for a concatenation is the list for the first part followed by the list for the second. |
| Report.FailingLength | cmd/common.go:169-175 | The list is as long as the FAIL count plus the WARN count. |
| Report.RemediationsShownIffListed | cmd/common.go:166-177 | With a summary that tallies the controls, the remediations banner appears exactly when some check is listed. The list length is Fail + Warn. |
| Report.PrintGroupRemediations | cmd/common.go:170-174 | A group's remediation lines: "ID remediation" for its FAIL or WARN checks, in check order. |
| Report.PrintRemediations | cmd/common.go:166-178 | When remediations are on and Fail > 0 or Warn > 0: the banner in WARN colour, the remediation lines of all FAIL/WARN checks in group then check order, then a blank line. Otherwise nothing. |
| Report.Headline | cmd/common.go:182-189 | The summary colour is PASS, WARN or FAIL and never INFO. It is the most severe of the states with a positive count, and PASS when none has one. |
| Report.HeadlineIgnoresInfo | cmd/common.go:182-189 | The INFO count never changes the headline. With no failures and no warnings the headline is PASS. |
| Report.HeadlineOfTally | cmd/common.go:182-189 | With a summary that tallies the controls, the headline is FAIL exactly when some check failed. It is WARN exactly when none failed and some check warned. |
| Report.PrintSummary | cmd/common.go:181-195 | Unless the summary is switched off: the banner in the headline's colour, then the PASS, FAIL, WARN and INFO counts. Otherwise nothing. |
| Report.PrettyPrint | cmd/common.go:147-196 | The whole report: results, then remediations, then summary. |
| RunChecks.Passes | cmd/common.go:98-102 | Exactly five passes, over the categories bin, conf, svc, kubeconfig and cafile, in that order, each carrying its own category's map (bin map for "bin", conf map for "conf", and so on). |
| RunChecks.ApplyPassesConcat | cmd/common.go:97-102 | Running passes in sequence composes: two runs in a row equal one run over the concatenated passes. |
| RunChecks.SubstitutionResumes | cmd/common.go:97-102 | After any number k of the five passes, the remaining passes applied to that intermediate document give the fully substituted document; in particular the "bin" pass runs first and the other four work on its result. |
| RunChecks.SubstituteAll | cmd/common.go:96-102 | The substituted document is the result of the five passes in the fixed order, each applied to the previous result. |
| RunChecks.ChooseOutput | cmd/common.go:117-137 | JSON is used exactly when some check produced a result and JSON was requested. PostgreSQL is used exactly when there are results, JSON was not requested and PostgreSQL was. The text report is used otherwise. |
| RunChecks.HasResultsIffEvaluated | cmd/common.go:117-135 | With a summary that tallies the controls, there are results exactly when some check was evaluated. A run that evaluated nothing always gets the text report. |

## Left out

- `runChecks` orchestration (reading the controls file, the Viper sub-configuration
  lookup, `getBinaries`, `getFiles`, `check.NewControls`, the runner, and the
  `os.Exit` / `exitWithError` paths): these are I/O and calls into the `check`
  package, which is not part of this model. Only the substitution order and the
  output choice are modelled.
- `makeSubstitutions` is not part of this model. It is a parameter, so nothing is
  claimed about what one pass does, only about the order and chaining of the passes.
- `cleanIDs` is not part of this model. Its result is a given set of IDs.
- The runner and aggregator (`controls.RunChecks` in the `check` package) are not part
  of this model. `Bench.Tally` states the summary they are expected to produce, and it
  is used only as a hypothesis ("a summary that tallies the controls").
- `loadConfig` and `isMaster`: version detection, configuration-file discovery, Viper
  merging, and process lookups are I/O and global state.
- `colorPrint`'s colour table, `PrintOutput`, `writeOutputToFile`, `savePgsql` and
  `controls.JSON()`: terminal, file and database output. A `Line` records which
  state's colour a line uses, not the escape codes.
- Report.PrettyPrint: the global switches `noResults`, `noRemediations`, `noSummary`
  and `includeTestOutput` become a `PrintOpts` parameter. The summary counts are
  modelled as four lines, although Go prints them with one `Printf`.
- `prettyPrint` is one function in the source. The model splits it into one method
  per section, and per group within a section, with the same loops and the same order.
- `cmd/node.go`: Cobra command registration and flag wiring only.
- glog logging.

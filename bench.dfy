/** The entities of a benchmark run, as the report code in cmd/common.go sees
    them: Controls hold Groups, Groups hold Checks, and a Summary counts the
    evaluated states. Only the fields the command layer reads are kept. */
module Bench {

  /** The outcome of a check. `Unset` is the zero value (the empty state) of a
      check the runner skipped because the run filter did not select it. */
  datatype State = Pass | Fail | Warn | Info | Unset

  datatype NodeType = Master | Node

  datatype Check = Check(
    id: string,
    text: string,
    scored: bool,
    state: State,
    actualValue: string,
    remediation: string)

  datatype Group = Group(id: string, text: string, checks: seq<Check>)

  datatype Controls = Controls(id: string, text: string, nodeType: NodeType, groups: seq<Group>)

  datatype Summary = Summary(pass: nat, fail: nat, warn: nat, info: nat)

  /** Every check of the groups, group by group and, within a group, in
      document order. */
  function AllChecks(groups: seq<Group>): seq<Check>
    decreases |groups|
  {
    if groups == [] then []
    else AllChecks(groups[..|groups| - 1]) + groups[|groups| - 1].checks
  }

  /** How many of the checks are in state `s`. */
  function CountState(cs: seq<Check>, s: State): nat
    decreases |cs|
  {
    if cs == [] then 0
    else CountState(cs[..|cs| - 1], s) + (if cs[|cs| - 1].state == s then 1 else 0)
  }

  /** The summary the runner is expected to hand back for finished controls:
      one count per evaluated state, skipped checks counted nowhere. */
  function Tally(r: Controls): Summary
  {
    var cs := AllChecks(r.groups);
    Summary(CountState(cs, Pass), CountState(cs, Fail), CountState(cs, Warn), CountState(cs, Info))
  }

  /** The count the summary keeps for state `s` (none for `Unset`). */
  function Tallied(summary: Summary, s: State): nat
  {
    match s
    case Pass => summary.pass
    case Fail => summary.fail
    case Warn => summary.warn
    case Info => summary.info
    case Unset => 0
  }

  /** A state has a positive count exactly when some check carries it. */
  lemma {:induction false} CountStatePositive(cs: seq<Check>, s: State)
    ensures CountState(cs, s) > 0 <==> exists c :: c in cs && c.state == s
    decreases |cs|
  {
    if cs != [] {
      var init := cs[..|cs| - 1];
      CountStatePositive(init, s);
      assert cs == init + [cs[|cs| - 1]];
      if exists c :: c in init && c.state == s {
        var c :| c in init && c.state == s;
        assert c in cs;
      }
    }
  }
}

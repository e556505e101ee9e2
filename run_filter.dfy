/** The run filter: the predicate over (group, check) pairs that decides which
    checks of a benchmark are run, built from the selection options. */
module RunFilter {
  import opened Bench

  datatype Result<T> = Ok(value: T) | Err(msg: string)

  /** The selection options: comma-separated check and group lists, and which
      scoring classes to include. */
  datatype FilterOpts = FilterOpts(checkList: string, groupList: string, scored: bool, unscored: bool)

  /** The Go predicate type: a function of a group and one of its checks. */
  type Predicate = (Group, Check) -> bool

  const BothListsError := "group option and check option can't be used together"

  /** The ID set the filter keeps for a list option: the cleaned IDs when the
      option was given, otherwise no set at all (a nil map, of length zero).
      `cleanIDs` is the command's own parser of the comma-separated list. */
  function IDSet(list: string, cleanIDs: string -> set<string>): set<string>
  {
    if list != "" then cleanIDs(list) else {}
  }

  /** Whether the scoring options admit a check. */
  predicate ScoringAdmits(opts: FilterOpts, c: Check)
  {
    (opts.scored && c.scored) || (opts.unscored && !c.scored)
  }

  /** Builds the run filter. Giving both a check list and a group list is an
      error; otherwise the predicate restricts by each non-empty ID set and
      always by the scoring options. */
  function NewRunFilter(opts: FilterOpts, cleanIDs: string -> set<string>): (r: Result<Predicate>)
    ensures r.Err? <==> opts.checkList != "" && opts.groupList != ""
    ensures r.Err? ==> r.msg == BothListsError
    ensures r.Ok? ==> forall g, c :: r.value(g, c) ==>
      var groupIDs := IDSet(opts.groupList, cleanIDs);
      groupIDs == {} || g.id in groupIDs
    ensures r.Ok? ==> forall g, c :: r.value(g, c) ==>
      var checkIDs := IDSet(opts.checkList, cleanIDs);
      checkIDs == {} || c.id in checkIDs
    ensures r.Ok? ==> forall g, c :: r.value(g, c) ==> ScoringAdmits(opts, c)
  {
    if opts.checkList != "" && opts.groupList != "" then
      Err(BothListsError)
    else
      var groupIDs := IDSet(opts.groupList, cleanIDs);
      var checkIDs := IDSet(opts.checkList, cleanIDs);
      Ok((g: Group, c: Check) =>
        var test := true;
        var test := if |groupIDs| > 0 then test && g.id in groupIDs else test;
        var test := if |checkIDs| > 0 then test && c.id in checkIDs else test;
        test && ScoringAdmits(opts, c))
  }

  /** Conversely, a pair that passes every test is selected: the three tests
      are all the predicate checks. */
  lemma SelectsWhenAllTestsPass(opts: FilterOpts, cleanIDs: string -> set<string>, g: Group, c: Check)
    requires NewRunFilter(opts, cleanIDs).Ok?
    requires IDSet(opts.groupList, cleanIDs) == {} || g.id in IDSet(opts.groupList, cleanIDs)
    requires IDSet(opts.checkList, cleanIDs) == {} || c.id in IDSet(opts.checkList, cleanIDs)
    requires ScoringAdmits(opts, c)
    ensures NewRunFilter(opts, cleanIDs).value(g, c)
  {
  }

  /** With neither scoring class requested nothing is selected; the options
      are accepted all the same. */
  lemma NoScoringSelectsNothing(opts: FilterOpts, cleanIDs: string -> set<string>, g: Group, c: Check)
    requires !opts.scored && !opts.unscored
    requires !(opts.checkList != "" && opts.groupList != "")
    ensures NewRunFilter(opts, cleanIDs).Ok?
    ensures !NewRunFilter(opts, cleanIDs).value(g, c)
  {
  }

  /** Without ID lists the scoring options alone decide: both select every
      pair, `scored` alone the scored checks, `unscored` alone the others. */
  lemma ScoringTruthTable(opts: FilterOpts, cleanIDs: string -> set<string>, g: Group, c: Check)
    requires opts.checkList == "" && opts.groupList == ""
    ensures NewRunFilter(opts, cleanIDs).Ok?
    ensures opts.scored && opts.unscored ==> NewRunFilter(opts, cleanIDs).value(g, c)
    ensures opts.scored && !opts.unscored ==> (NewRunFilter(opts, cleanIDs).value(g, c) <==> c.scored)
    ensures !opts.scored && opts.unscored ==> (NewRunFilter(opts, cleanIDs).value(g, c) <==> !c.scored)
  {
  }

  /** A list option that cleans to no IDs at all restricts nothing, although
      the option string itself was given. */
  lemma EmptyIDSetRestrictsNothing(opts: FilterOpts, cleanIDs: string -> set<string>, g: Group, c: Check)
    requires opts.groupList != "" && opts.checkList == "" && cleanIDs(opts.groupList) == {}
    ensures NewRunFilter(opts, cleanIDs).Ok?
    ensures NewRunFilter(opts, cleanIDs).value(g, c) == ScoringAdmits(opts, c)
  {
  }

  /** The predicate looks at nothing but the group ID, the check ID and the
      check's scored flag. */
  lemma DependsOnlyOnIDsAndScored(opts: FilterOpts, cleanIDs: string -> set<string>,
                                  g1: Group, c1: Check, g2: Group, c2: Check)
    requires NewRunFilter(opts, cleanIDs).Ok?
    requires g1.id == g2.id && c1.id == c2.id && c1.scored == c2.scored
    ensures NewRunFilter(opts, cleanIDs).value(g1, c1) == NewRunFilter(opts, cleanIDs).value(g2, c2)
  {
  }

  /** A run restricted to group "1.1" with only scored checks: a scored check
      of that group runs; an unscored check of that group and a scored check
      of another group do not. */
  lemma GroupListScenario(g: Group, other: Group, c: Check)
    requires g.id == "1.1" && other.id == "1.2" && c.scored
    ensures var r := NewRunFilter(FilterOpts("", "1.1", true, false), (list: string) => {"1.1"});
      && r.Ok?
      && r.value(g, c)
      && !r.value(g, c.(scored := false))
      && !r.value(other, c)
  {
  }
}

/** The decisions `runChecks` takes around running a benchmark: the order in
    which the discovered binaries and files are substituted into the controls
    document, and which output the finished results go to. */
module RunChecks {
  import opened Bench

  // ---------------------------------------------------------------------
  // Variable substitution

  /** The maps discovered for a node type: role name to resolved binary or
      file, one map per category. */
  datatype FactMaps = FactMaps(
    bin: map<string, string>,
    conf: map<string, string>,
    svc: map<string, string>,
    kubeconfig: map<string, string>,
    cafile: map<string, string>)

  /** `makeSubstitutions(s, ext, m)`: replaces the variables of category `ext`
      in `s` using `m`. Its workings are not part of this model. */
  type Substituter = (string, string, map<string, string>) -> string

  /** The categories, in the order their passes run. */
  const SubstitutionOrder: seq<string> := ["bin", "conf", "svc", "kubeconfig", "cafile"]

  /** The map a category's pass substitutes from. */
  function MapOf(maps: FactMaps, category: string): map<string, string>
  {
    match category
    case "bin" => maps.bin
    case "conf" => maps.conf
    case "svc" => maps.svc
    case "kubeconfig" => maps.kubeconfig
    case "cafile" => maps.cafile
    case _ => map[]
  }

  /** The passes over the document: one per category, in order. */
  function Passes(maps: FactMaps): (passes: seq<(string, map<string, string>)>)
    ensures |passes| == |SubstitutionOrder|
    ensures forall k :: 0 <= k < |passes| ==> passes[k].0 == SubstitutionOrder[k]
    ensures forall k :: 0 <= k < |passes| ==> passes[k].1 == MapOf(maps, passes[k].0)
  {
    [("bin", maps.bin), ("conf", maps.conf), ("svc", maps.svc),
     ("kubeconfig", maps.kubeconfig), ("cafile", maps.cafile)]
  }

  /** The document after running the passes one after the other. */
  function ApplyPasses(doc: string, passes: seq<(string, map<string, string>)>,
                       makeSubstitutions: Substituter): string
    decreases |passes|
  {
    if passes == [] then doc
    else ApplyPasses(makeSubstitutions(doc, passes[0].0, passes[0].1), passes[1..], makeSubstitutions)
  }

  /** Running two lists of passes in a row is running their concatenation. */
  lemma {:induction false} ApplyPassesConcat(doc: string, p: seq<(string, map<string, string>)>,
                                             q: seq<(string, map<string, string>)>,
                                             makeSubstitutions: Substituter)
    ensures ApplyPasses(ApplyPasses(doc, p, makeSubstitutions), q, makeSubstitutions)
         == ApplyPasses(doc, p + q, makeSubstitutions)
    decreases |p|
  {
    if p == [] {
      assert p + q == q;
    } else {
      assert (p + q)[0] == p[0];
      assert (p + q)[1..] == p[1..] + q;
      ApplyPassesConcat(makeSubstitutions(doc, p[0].0, p[0].1), p[1..], q, makeSubstitutions);
    }
  }

  /** Rewrites the controls document with every category's map, one pass per
      category in the fixed order, each pass working on the previous result. */
  method SubstituteAll(doc: string, maps: FactMaps, makeSubstitutions: Substituter) returns (s: string)
    ensures s == ApplyPasses(doc, Passes(maps), makeSubstitutions)
  {
    ghost var rest := Passes(maps);
    ghost var goal := ApplyPasses(doc, rest, makeSubstitutions);
    s := doc;
    s := makeSubstitutions(s, "bin", maps.bin);
    rest := rest[1..];
    assert ApplyPasses(s, rest, makeSubstitutions) == goal;
    s := makeSubstitutions(s, "conf", maps.conf);
    rest := rest[1..];
    assert ApplyPasses(s, rest, makeSubstitutions) == goal;
    s := makeSubstitutions(s, "svc", maps.svc);
    rest := rest[1..];
    assert ApplyPasses(s, rest, makeSubstitutions) == goal;
    s := makeSubstitutions(s, "kubeconfig", maps.kubeconfig);
    rest := rest[1..];
    assert ApplyPasses(s, rest, makeSubstitutions) == goal;
    s := makeSubstitutions(s, "cafile", maps.cafile);
    rest := rest[1..];
    assert rest == [];
  }

  /** The passes can be cut anywhere: the remaining passes, run on the
      document the first `k` passes produced, give the substituted document.
      With `k == 1`: the "bin" pass runs first and the other four work on its
      result. */
  lemma SubstitutionResumes(doc: string, maps: FactMaps, makeSubstitutions: Substituter, k: nat)
    requires k <= |SubstitutionOrder|
    ensures ApplyPasses(ApplyPasses(doc, Passes(maps)[..k], makeSubstitutions), Passes(maps)[k..], makeSubstitutions)
         == ApplyPasses(doc, Passes(maps), makeSubstitutions)
    ensures k == 1 ==>
      ApplyPasses(doc, Passes(maps), makeSubstitutions)
        == ApplyPasses(makeSubstitutions(doc, "bin", maps.bin), Passes(maps)[1..], makeSubstitutions)
  {
    var passes := Passes(maps);
    ApplyPassesConcat(doc, passes[..k], passes[k..], makeSubstitutions);
    assert passes[..k] + passes[k..] == passes;
  }

  // ---------------------------------------------------------------------
  // Output choice

  /** Where the finished results go. */
  datatype Output = JsonOutput | PgsqlOutput | PrettyOutput

  /** Whether any check produced a result. */
  predicate HasResults(summary: Summary)
  {
    summary.fail > 0 || summary.warn > 0 || summary.pass > 0 || summary.info > 0
  }

  /** JSON is written only when it was asked for and some check produced a
      result; otherwise the results are saved to PostgreSQL when that was asked
      for and there are results; otherwise the text report is printed. */
  function ChooseOutput(summary: Summary, jsonFmt: bool, pgSQL: bool): (o: Output)
    ensures o == JsonOutput <==> HasResults(summary) && jsonFmt
    ensures o == PgsqlOutput <==> HasResults(summary) && !jsonFmt && pgSQL
    ensures o == PrettyOutput <==> !HasResults(summary) || (!jsonFmt && !pgSQL)
  {
    if HasResults(summary) && jsonFmt then JsonOutput
    else if HasResults(summary) && pgSQL then PgsqlOutput
    else PrettyOutput
  }

  /** With a summary that tallies the controls, there are results exactly when
      some check was evaluated; a run that selected nothing falls back to the
      text report, whatever format was asked for. */
  lemma HasResultsIffEvaluated(r: Controls, jsonFmt: bool, pgSQL: bool)
    ensures HasResults(Tally(r)) <==> exists c :: c in AllChecks(r.groups) && c.state != Unset
    ensures (forall c :: c in AllChecks(r.groups) ==> c.state == Unset) ==>
      ChooseOutput(Tally(r), jsonFmt, pgSQL) == PrettyOutput
  {
    var cs := AllChecks(r.groups);
    CountStatePositive(cs, Pass);
    CountStatePositive(cs, Fail);
    CountStatePositive(cs, Warn);
    CountStatePositive(cs, Info);
  }
}

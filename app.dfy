/**
 * The earlier single-page viewer: a fixed login, a ranking of the ideas
 * by ROC_AUC, and for the idea picked in the sidebar either a diff of its
 * candidate against the baseline or the reason none can be shown.
 */
module App {
  import opened Sorting
  import opened Catalog

  const Username: string := "admin"
  const Password: string := "password123"
  const BaseDir: Path := Path(["tasks", "MPPE_POC_1", "PinacoladaV0"])
  const BaselineFile: Path := Path(["tasks", "MPPE_POC_1", "baseline", "experiment.py"])
  const AucKey: string := "ROC_AUC"
  const CandidateName: string := "final_candidate.py"

  /**
   * `load_results`: the catalog scan with the metric fixed to `ROC_AUC`
   * and no random mode.
   */
  method LoadResults(base: Path, dir: seq<Entry>) returns (results: seq<IdeaResult>, warnings: seq<string>)
    requires DistinctNames(dir)
    ensures results == SortDesc(Collect(base, SortByName(dir), AucKey, false), MetricOf)
    ensures warnings == Warnings(base, SortByName(dir), AucKey, false)
    ensures NonIncreasing(results, MetricOf)
    ensures forall v :: IdeasAscending(WithKey(results, MetricOf, v))
    ensures DistinctBy(results, IdeaOf)
    ensures forall r :: r in results <==>
      exists e :: e in dir && HasMetric(e, AucKey) && r == IdeaResult(e.name, MetricValue(e, AucKey), Child(base, e.name))
    ensures forall name :: name in warnings <==> exists e :: e in dir && HasBadResults(e) && e.name == name
  {
    results, warnings := LoadRealResults(base, dir, AucKey, false);
  }

  /** The login state of a browser session. */
  class AppSession {
    var authenticated: bool

    constructor()
      ensures !authenticated
    {
      authenticated := false;
    }

    /** The login button: only the exact configured pair is accepted; anything else is rejected and changes nothing. */
    method Login(username: string, password: string) returns (rejected: bool)
      requires !authenticated
      modifies this
      ensures rejected <==> !(username == Username && password == Password)
      ensures authenticated <==> !rejected
    {
      if username == Username && password == Password {
        authenticated := true;
        rejected := false;
      } else {
        rejected := true;
      }
    }
  }

  /** What the main page shows. */
  datatype View =
    | LoginForm
    | NoIdeas
    | CandidateMissing(idea: string, auc: real)
    | BaselineMissing(idea: string, auc: real, baseline: Path)
    | Diff(idea: string, auc: real, oldText: string, newText: string)

  function CandidatePath(idea: string): Path {
    Child(Child(BaseDir, idea), CandidateName)
  }

  /** `next(item["auc"] for item in results if item["idea"] == selected)`: the value of the first record for `idea`. */
  function FirstAuc(results: seq<IdeaResult>, idea: string): (auc: real)
    requires exists i :: 0 <= i < |results| && results[i].idea == idea
    ensures exists i ::
      && 0 <= i < |results| && results[i].idea == idea && results[i].metricValue == auc
      && forall j :: 0 <= j < i ==> results[j].idea != idea
  {
    if results[0].idea == idea then results[0].metricValue
    else
      var i :| 0 <= i < |results| && results[i].idea == idea;
      assert results[1..][i - 1].idea == idea;
      FirstAuc(results[1..], idea)
  }

  /** With no idea listed twice, the first record for the picked idea is the picked record. */
  lemma FirstAucOfPick(results: seq<IdeaResult>, pick: nat)
    requires DistinctBy(results, IdeaOf) && pick < |results|
    ensures FirstAuc(results, results[pick].idea) == results[pick].metricValue
  {
  }

  /**
   * The main page for the sidebar's pick (`pick` indexes the ranking; the
   * radio starts on the first idea). `files` maps each existing file to its
   * text. The candidate is checked before the baseline, and the texts are
   * read only once both exist.
   */
  function MainView(authenticated: bool, results: seq<IdeaResult>, pick: nat, files: map<Path, string>): (v: View)
    requires results != [] ==> pick < |results|
    ensures v.LoginForm? <==> !authenticated
    ensures v.NoIdeas? <==> authenticated && results == []
    ensures authenticated && results != [] ==>
      && v.idea == results[pick].idea
      && v.auc == FirstAuc(results, results[pick].idea)
      && (v.CandidateMissing? <==> CandidatePath(v.idea) !in files)
      && (v.BaselineMissing? <==> CandidatePath(v.idea) in files && BaselineFile !in files)
      && (v.BaselineMissing? ==> v.baseline == BaselineFile)
      && (v.Diff? <==> CandidatePath(v.idea) in files && BaselineFile in files)
      && (v.Diff? ==> v.oldText == files[BaselineFile] && v.newText == files[CandidatePath(v.idea)])
  {
    if !authenticated then LoginForm
    else if results == [] then NoIdeas
    else
      var selected := results[pick].idea;
      var auc := FirstAuc(results, selected);
      var cand := CandidatePath(selected);
      if cand !in files then CandidateMissing(selected, auc)
      else if BaselineFile !in files then BaselineMissing(selected, auc, BaselineFile)
      else Diff(selected, auc, files[BaselineFile], files[cand])
  }

  /** On the ranking `load_results` returns, the value shown is the picked idea's own. */
  lemma ShownAucIsPicked(authenticated: bool, results: seq<IdeaResult>, pick: nat, files: map<Path, string>)
    requires DistinctBy(results, IdeaOf) && authenticated && pick < |results|
    ensures MainView(authenticated, results, pick, files).auc == results[pick].metricValue
  {
    FirstAucOfPick(results, pick);
  }
}

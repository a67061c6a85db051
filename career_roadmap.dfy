/** The career roadmap page (src/pages/Freelancer/CareerRoadmapPage.tsx):
    how many milestones are done, the progress percentage, the projected
    ranking, and the re-evaluate button, which is enabled once a milestone
    is done and saves the current ranking before moving on. Toggling a
    milestone is App.AppState.ToggleMilestone. */
module CareerRoadmap {
  import opened Common
  import opened Domain
  import App

  /** A milestone is done somewhere in the roadmap exactly when the count
      is positive. */
  lemma {:induction false} CountPositiveIffSomeDone(ms: seq<Milestone>)
    ensures App.CompletedCount(ms) > 0 <==> exists i :: 0 <= i < |ms| && ms[i].completed
  {
    if ms != [] {
      var init := ms[..|ms| - 1];
      CountPositiveIffSomeDone(init);
      assert forall i :: 0 <= i < |init| ==> init[i] == ms[i];
      if App.CompletedCount(init) > 0 {
        var i :| 0 <= i < |init| && init[i].completed;
        assert ms[i].completed;
      }
    }
  }

  /** Every milestone is done exactly when the count is the length. */
  lemma {:induction false} CountFullIffAllDone(ms: seq<Milestone>)
    ensures App.CompletedCount(ms) == |ms| <==> forall i :: 0 <= i < |ms| ==> ms[i].completed
  {
    if ms != [] {
      var init := ms[..|ms| - 1];
      CountFullIffAllDone(init);
      assert forall i :: 0 <= i < |init| ==> init[i] == ms[i];
    }
  }

  /** `(completedCount / roadmapMilestones.length) * 100`; the roadmap must
      not be empty, since the page divides by its length. */
  function Progress(ms: seq<Milestone>): (p: real)
    requires |ms| > 0
    ensures 0.0 <= p <= 100.0
    ensures p == 100.0 <==> forall i :: 0 <= i < |ms| ==> ms[i].completed
    ensures p == 0.0 <==> forall i :: 0 <= i < |ms| ==> !ms[i].completed
  {
    var c := App.CompletedCount(ms) as real;
    var n := |ms| as real;
    RatioBounds(c, c, n);
    CountFullIffAllDone(ms);
    CountPositiveIffSomeDone(ms);
    (c / n) * 100.0
  }

  /** `Math.min(100, currentRanking + (4 - completedCount) * 4)`. The 4 is
      the length of the initial roadmap, written as a constant: the
      projection never exceeds 100 and stays at or above the current
      ranking while at most four milestones are done, but a longer roadmap
      with more done pushes it below. */
  function ProjectedRanking(current: int, completed: nat): (r: int)
    ensures r <= 100
    ensures completed <= 4 && current <= 100 ==> current <= r
    ensures completed > 4 && current <= 100 ==> r < current
    ensures completed == 4 && current <= 100 ==> r == current
  {
    MinInt(100, current + (4 - completed) * 4)
  }

  /** On the initial roadmap (nothing done) with the initial ranking of 83
      the projection is 99. */
  lemma InitialProjection()
    ensures ProjectedRanking(83, App.CompletedCount(App.InitialRoadmap)) == 99
  {
    App.InitialRanking();
  }

  /** The re-evaluate button is disabled while completedCount is 0. */
  function ReEvaluateEnabled(ms: seq<Milestone>): (b: bool)
    ensures b <==> exists i :: 0 <= i < |ms| && ms[i].completed
  {
    CountPositiveIffSomeDone(ms);
    App.CompletedCount(ms) != 0
  }

  const ReEvaluationPath: string := "/freelancer/re-evaluation"

  /** handleReEvaluate, reachable only through the enabled button: saves
      the current ranking as the previous one and returns the route. */
  method HandleReEvaluate(app: App.AppState) returns (path: string)
    requires app.Valid() && ReEvaluateEnabled(app.milestones)
    modifies app
    ensures app.Valid()
    ensures app.previousPseudoRanking == Some(old(app.CalculatePseudoRanking()))
    ensures app.user == old(app.user) && app.profile == old(app.profile) && app.milestones == old(app.milestones)
    ensures app.clientFeedback == old(app.clientFeedback) && app.storage == old(app.storage)
    ensures path == ReEvaluationPath
  {
    app.SavePreviousRanking();
    path := ReEvaluationPath;
  }
}

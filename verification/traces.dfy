/**
 Sequences of events: what the state machine keeps invariant over any run,
 and how a user on a guide screen reaches Home through the guide callbacks.
 */
module Traces {
  import opened NavGraph
  import opened Onboarding

  /** The state after the events of `evs`, first event first. */
  function Run(cfg: Config, s: State, evs: seq<Event>): (r: State)
    ensures r.stored == s.stored || r.stored == Some(cfg.initVersion)
    ensures Onboarded(cfg, s) ==> Onboarded(cfg, r)
    decreases |evs|
  {
    if evs == [] then s else Run(cfg, Step(cfg, s, evs[0]), evs[1..])
  }

  /** Every event of `evs` is offered by the screen showing when it fires. */
  predicate Driven(cfg: Config, s: State, evs: seq<Event>)
    decreases |evs|
  {
    evs == [] || (Offered(s.dest, evs[0]) && Driven(cfg, Step(cfg, s, evs[0]), evs[1..]))
  }

  /** Only solution-state changes. */
  predicate OnlyReactions(evs: seq<Event>) {
    forall i :: 0 <= i < |evs| ==> evs[i].SolutionStateChanged?
  }

  /** Running one more event is one more step. */
  lemma {:induction false} RunSnoc(cfg: Config, s: State, evs: seq<Event>, e: Event)
    ensures Run(cfg, s, evs + [e]) == Step(cfg, Run(cfg, s, evs), e)
    decreases |evs|
  {
    if evs != [] {
      assert (evs + [e])[1..] == evs[1..] + [e];
      RunSnoc(cfg, Step(cfg, s, evs[0]), evs[1..], e);
    }
  }

  /** Once the user is on a guide screen, no sequence of solution-state changes takes them off it. */
  lemma {:induction false} GuideSticky(cfg: Config, s: State, evs: seq<Event>)
    requires IsGuide(s.dest)
    requires OnlyReactions(evs)
    ensures Run(cfg, s, evs).dest == s.dest
    decreases |evs|
  {
    if evs != [] {
      var t := Step(cfg, s, evs[0]);
      assert t.dest == s.dest;
      assert OnlyReactions(evs[1..]) by {
        forall i | 0 <= i < |evs[1..]| ensures evs[1..][i].SolutionStateChanged? {
          assert evs[1..][i] == evs[i + 1];
        }
      }
      GuideSticky(cfg, t, evs[1..]);
    }
  }

  /** Solution-state changes alone never bring the user to Home from anywhere else. */
  lemma {:induction false} ReactionsNeverReachHome(cfg: Config, s: State, evs: seq<Event>)
    requires s.dest != Home
    requires OnlyReactions(evs)
    ensures Run(cfg, s, evs).dest != Home
    decreases |evs|
  {
    if evs != [] {
      var t := Step(cfg, s, evs[0]);
      assert OnlyReactions(evs[1..]) by {
        forall i | 0 <= i < |evs[1..]| ensures evs[1..][i].SolutionStateChanged? {
          assert evs[1..][i] == evs[i + 1];
        }
      }
      ReactionsNeverReachHome(cfg, t, evs[1..]);
    }
  }

  /**
   Once onboarded, the agreement guide is unreachable: no event sequence at all
   leads there from any other screen.
   */
  lemma {:induction false} AgreementUnreachableOnceOnboarded(cfg: Config, s: State, evs: seq<Event>)
    requires Onboarded(cfg, s)
    requires s.dest != GuideAgreement
    ensures Run(cfg, s, evs).dest != GuideAgreement
    decreases |evs|
  {
    if evs != [] {
      AgreementUnreachableOnceOnboarded(cfg, Step(cfg, s, evs[0]), evs[1..]);
    }
  }

  /** No agreement or reselect callback in the sequence. */
  predicate NoSolutionGuideCallbacks(evs: seq<Event>) {
    forall i :: 0 <= i < |evs| ==> !evs[i].AgreementDone? && !evs[i].ReselectSolution?
  }

  /**
   Once onboarded, only the agreement and the reselect callbacks lead to the
   solution guide: no reaction, relaunch or other callback does.
   */
  lemma {:induction false} SolutionGuideOnlyByCallbackOnceOnboarded(cfg: Config, s: State, evs: seq<Event>)
    requires Onboarded(cfg, s)
    requires s.dest != GuideSolution
    requires NoSolutionGuideCallbacks(evs)
    ensures Run(cfg, s, evs).dest != GuideSolution
    decreases |evs|
  {
    if evs != [] {
      assert NoSolutionGuideCallbacks(evs[1..]) by {
        forall i | 0 <= i < |evs[1..]|
          ensures !evs[1..][i].AgreementDone? && !evs[1..][i].ReselectSolution?
        {
          assert evs[1..][i] == evs[i + 1];
        }
      }
      SolutionGuideOnlyByCallbackOnceOnboarded(cfg, Step(cfg, s, evs[0]), evs[1..]);
    }
  }

  /**
   Once onboarded, every later solution-state change either leaves the
   destination alone or routes to the Shizuku guide: never back to the
   agreement or the solution guide.
   */
  lemma OnboardedReactionsOnlyCheckShizuku(cfg: Config, s: State, evs: seq<Event>, k: nat)
    requires Onboarded(cfg, s)
    requires k < |evs| && evs[k].SolutionStateChanged?
    ensures var before := Run(cfg, s, evs[..k]);
            var after := Run(cfg, s, evs[..k + 1]);
            after.dest == before.dest || after.dest == GuideShizukuRunning
  {
    assert evs[..k + 1] == evs[..k] + [evs[k]];
    RunSnoc(cfg, s, evs[..k], evs[k]);
  }

  /**
   The guide callbacks that lead from a screen to Home: agreement, then
   solution choice, then (if Shizuku is not running) "next".
   */
  function PathHome(cfg: Config, s: State): (evs: seq<Event>)
    ensures Driven(cfg, s, evs)
    ensures Run(cfg, s, evs).dest == Home
    ensures s.dest in {GuideAgreement, GuideSolution} ==> Onboarded(cfg, Run(cfg, s, evs))
    ensures |evs| <= 3
  {
    match s.dest
    case Home => []
    case GuideShizukuRunning => [ShizukuNext]
    case GuideSolution =>
      if s.shizukuRunning then [SolutionChosen] else [SolutionChosen, ShizukuNext]
    case GuideAgreement =>
      if s.shizukuRunning then [AgreementDone, SolutionChosen]
      else [AgreementDone, SolutionChosen, ShizukuNext]
  }

  /**
   The first-run flow for an outdated install: launch on Home, the effect sends
   the user to a guide, and the guide callbacks bring them Home onboarded.
   */
  lemma FirstRunCompletes(cfg: Config, stored: Option<int>, running: bool, region: string)
    requires EffectiveInitVersion(cfg, stored) < cfg.initVersion
    ensures var s := Init(stored, running);
            var evs := [SolutionStateChanged(running, region)] + PathHome(cfg, React(cfg, s, running, region));
            && Driven(cfg, s, evs)
            && Run(cfg, s, evs).dest == Home
            && Onboarded(cfg, Run(cfg, s, evs))
  {
    var s := Init(stored, running);
    var e := SolutionStateChanged(running, region);
    var t := React(cfg, s, running, region);
    var evs := [e] + PathHome(cfg, t);
    assert evs[0] == e && evs[1..] == PathHome(cfg, t);
    assert Step(cfg, s, e) == t;
  }
}

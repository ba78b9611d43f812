/**
 Properties of one reaction to a solution-state change and of the guide
 callbacks, stated against the decision tree of the app's effect.
 */
module ReactionProperties {
  import opened NavGraph
  import opened Onboarding

  /** The reaction's outcome for each destination, both directions. */
  lemma ReactOutcomes(cfg: Config, s: State, running: bool, region: string)
    ensures var r := React(cfg, s, running, region);
            var outdated := EffectiveInitVersion(cfg, s.stored) < cfg.initVersion;
            && (r.dest == GuideAgreement <==>
                  s.dest == GuideAgreement || (s.dest == Home && outdated && region == "CN"))
            && (r.dest == GuideSolution <==>
                  s.dest == GuideSolution || (s.dest == Home && outdated && region != "CN"))
            && (r.dest == GuideShizukuRunning <==>
                  s.dest == GuideShizukuRunning || (s.dest == Home && !outdated && !running))
            && (r.dest == Home <==> s.dest == Home && !outdated && running)
  {
  }

  /**
   An outdated init version takes priority: the Shizuku status is not consulted,
   and the user is sent to a guide that leads to the solution choice.
   */
  lemma OutdatedIgnoresShizuku(cfg: Config, s: State, running1: bool, running2: bool, region: string)
    requires !IsGuide(s.dest)
    requires EffectiveInitVersion(cfg, s.stored) < cfg.initVersion
    ensures React(cfg, s, running1, region).dest == React(cfg, s, running2, region).dest
    ensures React(cfg, s, running1, region).dest in {GuideAgreement, GuideSolution}
  {
  }

  /** With an up-to-date init version the region is not consulted. */
  lemma CurrentIgnoresRegion(cfg: Config, s: State, running: bool, region1: string, region2: string)
    requires Onboarded(cfg, s)
    ensures React(cfg, s, running, region1) == React(cfg, s, running, region2)
    ensures React(cfg, s, running, region1).dest !in {GuideAgreement, GuideSolution}
              || React(cfg, s, running, region1).dest == s.dest
  {
  }

  /** Reacting twice to the same solution state changes nothing the first reaction did not. */
  lemma ReactIdempotent(cfg: Config, s: State, running: bool, region: string)
    ensures var r := React(cfg, s, running, region);
            React(cfg, r, running, region) == r
  {
  }

  /** An onboarded user on Home stays on Home exactly while Shizuku is running. */
  lemma OnboardedHomeStable(cfg: Config, s: State, running: bool, region: string)
    requires s.dest == Home && Onboarded(cfg, s)
    ensures React(cfg, s, running, region).dest == Home <==> running
  {
  }

  /**
   After the solution guide completes, no reaction routes back to the agreement
   or the solution guide, whatever the region and the Shizuku status.
   */
  lemma NoEarlyGuideAfterSolution(cfg: Config, s: State, running: bool, region: string)
    ensures var t := CompleteSolution(cfg, s);
            React(cfg, t, running, region).dest !in {GuideAgreement, GuideSolution}
  {
  }

  /**
   Before any event the start destination is Home; the launch effect keeps it
   there exactly for an onboarded user with Shizuku running.
   */
  lemma LaunchFromHome(cfg: Config, stored: Option<int>, running: bool, region: string)
    ensures Init(stored, running).dest == Home
    ensures (React(cfg, Init(stored, running), running, region).dest == Home)
              == (EffectiveInitVersion(cfg, stored) >= cfg.initVersion && running)
  {
  }

  /**
   A relaunch forgets the destination: two states with the same store end on
   the same screen, so a guide screen is left without its callback.
   */
  lemma RelaunchForgetsDestination(cfg: Config, s1: State, s2: State, running: bool, region: string)
    requires s1.stored == s2.stored
    ensures Relaunch(cfg, s1, running, region) == Relaunch(cfg, s2, running, region)
  {
  }

  /**
   An outdated user in the agreement region who relaunches goes back to the
   agreement guide, even from the solution or Shizuku guide; an onboarded user
   with Shizuku running goes Home, even from a guide screen.
   */
  lemma RelaunchReentersGuide(cfg: Config, s: State, running: bool)
    ensures !Onboarded(cfg, s) ==> Relaunch(cfg, s, running, "CN").dest == GuideAgreement
    ensures Onboarded(cfg, s) && running ==> Relaunch(cfg, s, running, "CN").dest == Home
  {
  }
}

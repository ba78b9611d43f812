/**
 The start-destination state machine of ExtinguishApp: which screen the
 navigation host opens on, how a change of the solution state moves it, and
 how the guide screens' completion callbacks move it.

 The stored settings value, the device region and the Shizuku status are plain
 inputs; the two build constants are fields of a `Config`.
 */
module Onboarding {
  import opened NavGraph

  datatype Option<T> = None | Some(value: T)

  /** The two integer constants the decisions compare against. */
  datatype Config = Config(
    initVersion: int,        // the build's INIT_VERSION
    defaultInitVersion: int  // the settings default used when nothing is stored
  )

  /**
   The state the machine keeps:
   - `dest`: the current start destination;
   - `stored`: the init version persisted in the settings store, if any;
   - `shizukuRunning`: the Shizuku flag of the most recently collected solution state.
   */
  datatype State = State(dest: Destination, stored: Option<int>, shizukuRunning: bool)

  /** The events that write the start destination. */
  datatype Event =
    | SolutionStateChanged(running: bool, region: string)  // the effect keyed on the solution state
    | AgreementDone                                         // callback of the agreement guide
    | SolutionChosen                                        // callback of the solution guide
    | ReselectSolution                                      // Shizuku guide: "reselect"
    | ShizukuNext                                           // Shizuku guide: "next"
    | Recomposed(running: bool, region: string)            // the app re-enters composition

  /** The region code for which the agreement screen is shown first. */
  const AgreementRegion: string := "CN"

  /** The init version the app acts on: the stored one, or the default when none is stored. */
  function EffectiveInitVersion(cfg: Config, stored: Option<int>): (v: int)
    ensures stored.Some? ==> v == stored.value
    ensures stored.None? ==> v == cfg.defaultInitVersion
  {
    match stored
    case Some(x) => x
    case None => cfg.defaultInitVersion
  }

  /** The user has completed the guide for the current build's init version. */
  predicate Onboarded(cfg: Config, s: State) {
    EffectiveInitVersion(cfg, s.stored) >= cfg.initVersion
  }

  /** The state before any event: Home, with whatever the store already holds. */
  function Init(stored: Option<int>, running: bool): (s: State)
    ensures s.dest == Home && !IsGuide(s.dest)
    ensures s.stored == stored && s.shizukuRunning == running
  {
    State(Home, stored, running)
  }

  /**
   The reaction to a new solution state. A guide screen is never left; an
   outdated init version sends the user to the agreement (in the agreement
   region) or to the solution guide; otherwise a stopped Shizuku sends the user
   to the Shizuku guide and a running one leaves the destination alone.
   */
  function React(cfg: Config, s: State, running: bool, region: string): (r: State)
    ensures r.stored == s.stored && r.shizukuRunning == running
    ensures IsGuide(s.dest) ==> r.dest == s.dest
    ensures r.dest == s.dest || IsGuide(r.dest)
    ensures r.dest == Home ==> s.dest == Home
  {
    var s' := s.(shizukuRunning := running);
    if IsGuide(s.dest) then s'
    else if EffectiveInitVersion(cfg, s.stored) < cfg.initVersion then
      s'.(dest := if region == AgreementRegion then GuideAgreement else GuideSolution)
    else if !running then s'.(dest := GuideShizukuRunning)
    else s'
  }

  /** The agreement guide's completion callback. */
  function CompleteAgreement(s: State): (r: State)
    ensures r.dest == GuideSolution
    ensures r.stored == s.stored && r.shizukuRunning == s.shizukuRunning
  {
    s.(dest := GuideSolution)
  }

  /**
   The solution guide's completion callback: the build's init version is
   persisted, then the user goes Home if Shizuku is running and to the Shizuku
   guide otherwise.
   */
  function CompleteSolution(cfg: Config, s: State): (r: State)
    ensures r.stored == Some(cfg.initVersion) && Onboarded(cfg, r)
    ensures r.dest == Home <==> s.shizukuRunning
    ensures r.dest in {Home, GuideShizukuRunning}
    ensures r.shizukuRunning == s.shizukuRunning
  {
    State(if s.shizukuRunning then Home else GuideShizukuRunning, Some(cfg.initVersion), s.shizukuRunning)
  }

  /** The Shizuku guide's "reselect solution" callback. */
  function Reselect(s: State): (r: State)
    ensures r.dest == GuideSolution
    ensures r.stored == s.stored && r.shizukuRunning == s.shizukuRunning
  {
    s.(dest := GuideSolution)
  }

  /** The Shizuku guide's "next" callback. */
  function Next(s: State): (r: State)
    ensures r.dest == Home
    ensures r.stored == s.stored && r.shizukuRunning == s.shizukuRunning
  {
    s.(dest := Home)
  }

  /**
   Re-entering composition (activity recreation, process restore). The
   destination is remembered only for one composition, so it restarts at Home;
   the store survives, and the effect runs again on the current solution state.
   */
  function Relaunch(cfg: Config, s: State, running: bool, region: string): (r: State)
    ensures r.stored == s.stored && r.shizukuRunning == running
    ensures r.dest == Home <==> Onboarded(cfg, s) && running
    ensures !Onboarded(cfg, s) ==> r.dest in {GuideAgreement, GuideSolution}
    ensures !Onboarded(cfg, s) ==> (r.dest == GuideAgreement <==> region == AgreementRegion)
    ensures Onboarded(cfg, s) && !running ==> r.dest == GuideShizukuRunning
  {
    React(cfg, Init(s.stored, running), running, region)
  }

  /**
   One event. Only a solution-state change or a relaunch updates the Shizuku
   flag, and only the solution guide's callback writes the store, which it sets
   to the build's init version; so an onboarded user stays onboarded.
   */
  function Step(cfg: Config, s: State, e: Event): (r: State)
    ensures r.stored == s.stored || r.stored == Some(cfg.initVersion)
    ensures Onboarded(cfg, s) ==> Onboarded(cfg, r)
    ensures !e.SolutionStateChanged? && !e.Recomposed? ==> r.shizukuRunning == s.shizukuRunning
  {
    match e
    case SolutionStateChanged(running, region) => React(cfg, s, running, region)
    case AgreementDone => CompleteAgreement(s)
    case SolutionChosen => CompleteSolution(cfg, s)
    case ReselectSolution => Reselect(s)
    case ShizukuNext => Next(s)
    case Recomposed(running, region) => Relaunch(cfg, s, running, region)
  }

  /**
   Whether the screen showing `d` offers event `e`: a solution-state change or a
   relaunch can happen on any screen, each guide callback only on the guide
   screen that registers it.
   */
  predicate Offered(d: Destination, e: Event) {
    match e
    case SolutionStateChanged(_, _) => true
    case AgreementDone => d == GuideAgreement
    case SolutionChosen => d == GuideSolution
    case ReselectSolution => d == GuideShizukuRunning
    case ShizukuNext => d == GuideShizukuRunning
    case Recomposed(_, _) => true
  }
}

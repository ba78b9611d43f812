# Start-destination state machine of Extinguish

Extinguish's navigation root (`ExtinguishApp`) decides which screen the
navigation host opens on. There are four destinations:
- Home;
- three first-run guide screens: the agreement, the solution choice, and the
  Shizuku readiness check.

Three kinds of events write that destination:

- **A reaction to every new solution state.** The reaction leaves a guide screen
  alone. Otherwise it reads the stored init version, falling back to the
  settings default when none is stored. If that version is older than the
  build's `INIT_VERSION`, the user goes to the agreement guide when the device
  region is `"CN"` and to the solution guide otherwise. If the version is
  current and Shizuku is not running, the user goes to the Shizuku guide.
  Otherwise the destination is unchanged.
- **The guide screens' completion callbacks.**
  - Agreement done leads to the solution guide.
  - Solution chosen stores `INIT_VERSION`, then leads Home if Shizuku is
    running and to the Shizuku guide otherwise.
  - In the Shizuku guide, "reselect" leads to the solution guide and "next"
    leads Home.
- **Re-entering composition.** This happens when the activity is recreated or
  the process is restored. The destination is only remembered for one
  composition, so it restarts at Home. The store survives, and the effect runs
  again on the current solution state.

The model is functional. It has these parts:
- `NavGraph.Destination`, a four-value enum.
- `Onboarding.State`, which holds the destination, the stored init version
  (`Option<int>`) and the last seen Shizuku flag.
- `Onboarding.Config`, which holds the two build constants (`INIT_VERSION` and
  the settings default). Their values are defined outside ExtinguishApp.kt, so
  they are parameters.
- One pure function per event, combined in `Onboarding.Step`.
- `Traces.Run`, which runs a sequence of events.
- `Onboarding.Offered`, which says which callbacks a given screen offers.
  `Traces.Driven` uses it to pick out the event sequences a user can actually
  produce.

The first launch is `Onboarding.Init` (Home). The effect's first run on
entering composition is the first `SolutionStateChanged` event. Each later
re-entry into composition is a `Recomposed` event, modelled by
`Onboarding.Relaunch`: it restarts at Home with the store kept, then runs the
effect.

Files:
- `nav_graph.dfy`: the destinations.
- `onboarding.dfy`: the state, the events and the transitions.
- `properties.dfy`: facts about one reaction or callback.
- `traces.dfy`: facts about event sequences.

## Model

| member | source | states |
|---|---|---|
| Onboarding.Init | app/src/main/java/own/moderpach/extinguish/ExtinguishApp.kt:60-62 | Before any event the destination is Home, which is not a guide screen. The store and the Shizuku flag are whatever the environment holds. |
| Onboarding.EffectiveInitVersion | app/src/main/java/own/moderpach/extinguish/ExtinguishApp.kt:70-72 | The effective init version is the stored value when one is stored, and the settings default otherwise. |
| Onboarding.React | app/src/main/java/own/moderpach/extinguish/ExtinguishApp.kt:64-82 | The reaction never writes the store. It never leaves a guide screen. It either keeps the destination or moves to a guide screen, so it never sets Home. |
| Onboarding.CompleteAgreement | app/src/main/java/own/moderpach/extinguish/ExtinguishApp.kt:147-149 | Completing the agreement leads to the solution guide. Nothing else changes. |
| Onboarding.CompleteSolution | app/src/main/java/own/moderpach/extinguish/ExtinguishApp.kt:150-154 | Completing the solution choice stores INIT_VERSION, which leaves the user onboarded. It leads Home if and only if Shizuku is running, and to the Shizuku guide otherwise. |
| Onboarding.Reselect | app/src/main/java/own/moderpach/extinguish/ExtinguishApp.kt:157-159 | "Reselect" in the Shizuku guide leads to the solution guide. Store and flag are untouched. |
| Onboarding.Next | app/src/main/java/own/moderpach/extinguish/ExtinguishApp.kt:160-162 | "Next" in the Shizuku guide leads Home. Store and flag are untouched. |
| Onboarding.Relaunch | app/src/main/java/own/moderpach/extinguish/ExtinguishApp.kt:60-82 | Re-entering composition keeps the store and takes the current Shizuku flag. The user lands on Home exactly when onboarded with Shizuku running. A user who is not onboarded lands on the agreement guide in the "CN" region and on the solution guide elsewhere. An onboarded user with Shizuku stopped lands on the Shizuku guide. |
| Onboarding.Step | app/src/main/java/own/moderpach/extinguish/ExtinguishApp.kt:64-163 | The only value any event writes to the store is INIT_VERSION, so every event keeps an onboarded user onboarded. Only a solution-state change or a relaunch updates the Shizuku flag. |
| ReactionProperties.ReactOutcomes | app/src/main/java/own/moderpach/extinguish/ExtinguishApp.kt:64-82 | For each of the four destinations, an if-and-only-if says exactly when the reaction produces it. The inputs are the old destination, an outdated version, the region being "CN", and Shizuku running. |
| ReactionProperties.OutdatedIgnoresShizuku | app/src/main/java/own/moderpach/extinguish/ExtinguishApp.kt:73-77 | The outdated-version branch takes priority. Off a guide screen, the result is the same whatever the Shizuku status, and it is the agreement or the solution guide. |
| ReactionProperties.CurrentIgnoresRegion | app/src/main/java/own/moderpach/extinguish/ExtinguishApp.kt:73-81 | With a current init version the region does not affect the result. The reaction never moves to the agreement or the solution guide. |
| ReactionProperties.ReactIdempotent | app/src/main/java/own/moderpach/extinguish/ExtinguishApp.kt:64-82 | Reacting a second time to the same solution state and region changes nothing. |
| ReactionProperties.OnboardedHomeStable | app/src/main/java/own/moderpach/extinguish/ExtinguishApp.kt:79-81 | An onboarded user on Home stays on Home exactly when Shizuku is running. |
| ReactionProperties.NoEarlyGuideAfterSolution | app/src/main/java/own/moderpach/extinguish/ExtinguishApp.kt:150-154 | After the solution choice completes, no reaction moves to the agreement or the solution guide, whatever the region and Shizuku status. |
| ReactionProperties.RelaunchForgetsDestination | app/src/main/java/own/moderpach/extinguish/ExtinguishApp.kt:60-62 | A relaunch does not depend on the screen it happens on. Two states with the same store end on the same screen, so a relaunch can leave a guide screen without its callback. |
| ReactionProperties.RelaunchReentersGuide | app/src/main/java/own/moderpach/extinguish/ExtinguishApp.kt:60-77 | In the "CN" region a user who is not onboarded is sent back to the agreement guide by a relaunch, even from a later guide. An onboarded user with Shizuku running lands on Home, even from the Shizuku guide. |
| ReactionProperties.LaunchFromHome | app/src/main/java/own/moderpach/extinguish/ExtinguishApp.kt:60-82 | Before any event the destination is Home. The first reaction keeps Home exactly when the effective version is current and Shizuku is running. |
| Traces.Run | app/src/main/java/own/moderpach/extinguish/ExtinguishApp.kt:147-163 | Over any event sequence the store ends as it began or holds INIT_VERSION. An onboarded user stays onboarded. |
| Traces.GuideSticky | app/src/main/java/own/moderpach/extinguish/ExtinguishApp.kt:65-69 | Any sequence made only of solution-state changes leaves a guide screen unchanged. Only the guide callbacks or a relaunch leave a guide. |
| Traces.ReactionsNeverReachHome | app/src/main/java/own/moderpach/extinguish/ExtinguishApp.kt:64-82 | Solution-state changes alone never bring a user on another screen to Home. |
| Traces.AgreementUnreachableOnceOnboarded | app/src/main/java/own/moderpach/extinguish/ExtinguishApp.kt:73-77 | Once onboarded and off the agreement guide, no event sequence at all leads back to the agreement guide. |
| Traces.SolutionGuideOnlyByCallbackOnceOnboarded | app/src/main/java/own/moderpach/extinguish/ExtinguishApp.kt:147-163 | Once onboarded and off the solution guide, an event sequence with no agreement or reselect callback never leads to the solution guide. This holds whatever reactions, relaunches and other callbacks it contains. |
| Traces.OnboardedReactionsOnlyCheckShizuku | app/src/main/java/own/moderpach/extinguish/ExtinguishApp.kt:73-81 | For an onboarded start, every later solution-state change in any event sequence keeps the destination or moves to the Shizuku guide. |
| Traces.PathHome | app/src/main/java/own/moderpach/extinguish/ExtinguishApp.kt:147-163 | From every destination, at most three callbacks offered by the screens shown lead Home. Starting from the agreement or the solution guide, the user ends onboarded. |
| Traces.FirstRunCompletes | app/src/main/java/own/moderpach/extinguish/ExtinguishApp.kt:60-163 | For an install with an outdated version: launch on Home, then the first reaction, then the offered guide callbacks. This path reaches Home onboarded. |

## Left out

- Compose rendering, theming and the registration of the home, settings, timer
  and about screens are declarative UI wiring with no behaviour to state.
- `navigate` and `popBackStack` are thin wrappers over the navigation library.
- How the effect is scheduled is not modelled. The effect re-runs only when the
  solution state changes by equality, and a new run cancels a suspended one.
  Each reaction is modelled as one atomic event.
- The asynchronous settings read is a plain input: the `stored` field. A failing
  read is not modelled.
- The `initVersion` write goes through the settings repository, whose
  implementation is not part of this model. It is modelled as a synchronous
  write to the same store the effect reads.
- The device region lookup is a platform call, so the region is an input string
  carried by the event.
- The injected collaborators (solution-state manager, permissions manager,
  settings and timer repositories) are not part of this model. Only the
  Shizuku-running flag and the stored init version are modelled.
- The values of `INIT_VERSION` and of the settings default are defined outside
  ExtinguishApp.kt. They are `Config` fields, and every property holds for all
  values.
- `Onboarding.Offered` is an assumption, not source behaviour: each guide
  callback fires only from the screen that registers it. The callbacks
  themselves are total functions, exactly as the code assigns unconditionally.
  `Onboarding.Offered` and `Traces.Driven`, which applies it to a sequence,
  have no row under "## Model" on purpose. They state this assumption and do
  not model source lines.

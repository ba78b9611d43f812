/**
 The four start destinations the navigation host of ExtinguishApp can open on.
 The navigation-graph object in the app names them; here they are an enum.
 */
module NavGraph {

  datatype Destination = Home | GuideAgreement | GuideSolution | GuideShizukuRunning

  /** True for the three first-run guide screens. */
  predicate IsGuide(d: Destination) {
    d == GuideShizukuRunning || d == GuideAgreement || d == GuideSolution
  }
}

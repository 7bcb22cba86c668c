/**
  The RootBeer probes the engine consults and the fixed table that groups
  them into families. The probes themselves (file-system scans, package
  queries, property reads, the native su search) are outside the model: a
  detector is simply the reading of every probe at the time of the call.
*/
module Probes {
  import opened Families

  /** One RootBeer check, named after the method that performs it. */
  datatype Probe =
    | SuBinary              // checkForSuBinary
    | SuExists              // checkSuExists
    | RwSystem              // checkForRWSystem
    | RootNative            // checkForRootNative
    | RootManagementApps    // checkRootManagementApps
    | DangerousApps         // checkPotentiallyDangerousApps
    | CloakingApps          // checkRootCloakingApps
    | TestKeys              // checkTestKeys
    | DangerousProps        // checkForDangerousProps
    | DangerousPaths        // checkForDangerousPaths
    | WrongPathPermissions  // checkForWrongPathPermissions
    | BusyBoxBinary         // checkForBusyBoxBinary

  /** The readings of a RootBeer instance: what each check returns. */
  type Detector = Probe -> bool

  /** The probes whose OR decides a family, in the order they are evaluated. */
  function Members(f: RootFamily): (ps: seq<Probe>)
    ensures |ps| > 0
  {
    match f
    case BINARIES => [SuBinary, SuExists, RwSystem, RootNative]
    case PACKAGES => [RootManagementApps, DangerousApps, CloakingApps]
    case PROPS => [TestKeys, DangerousProps]
    case PATHS => [DangerousPaths, WrongPathPermissions]
    case BUSYBOX => [BusyBoxBinary]
  }

  /** The family each probe is grouped under. */
  function Owner(p: Probe): RootFamily {
    match p
    case SuBinary | SuExists | RwSystem | RootNative => BINARIES
    case RootManagementApps | DangerousApps | CloakingApps => PACKAGES
    case TestKeys | DangerousProps => PROPS
    case DangerousPaths | WrongPathPermissions => PATHS
    case BusyBoxBinary => BUSYBOX
  }

  /** The membership table partitions the probes: each probe is a member of
      exactly the family that owns it. */
  lemma MembersPartitionProbes(p: Probe, f: RootFamily)
    ensures p in Members(f) <==> Owner(p) == f
  {
  }

  /** The short-circuit OR of the readings of `ps`. */
  function AnyProbe(d: Detector, ps: seq<Probe>): (r: bool)
    ensures r <==> exists i :: 0 <= i < |ps| && d(ps[i])
  {
    |ps| > 0 && (d(ps[0]) || AnyProbe(d, ps[1..]))
  }

  /** A family is triggered when at least one of its member probes reports true. */
  predicate Fires(d: Detector, f: RootFamily) {
    AnyProbe(d, Members(f))
  }

  /** A family is triggered exactly when some probe it owns reports true. */
  lemma FiresIffOwnedProbe(d: Detector, f: RootFamily)
    ensures Fires(d, f) <==> exists p :: Owner(p) == f && d(p)
  {
  }

  /** Whether a family fires depends only on the probes it owns. */
  lemma FiresDependsOnlyOnOwnProbes(d: Detector, d': Detector, f: RootFamily)
    requires forall p :: Owner(p) == f ==> d(p) == d'(p)
    ensures Fires(d, f) == Fires(d', f)
  {
  }

  /** More probes reporting true never un-triggers a family. */
  lemma FiresMonotone(d: Detector, d': Detector, f: RootFamily)
    requires forall p :: d(p) ==> d'(p)
    ensures Fires(d, f) ==> Fires(d', f)
  {
  }

  /** The table agrees with the OR written out for each family in
      `isDeviceSuspicious`. */
  lemma FiresSpelledOut(d: Detector)
    ensures Fires(d, BINARIES) == (d(SuBinary) || d(SuExists) || d(RwSystem) || d(RootNative))
    ensures Fires(d, PACKAGES) == (d(RootManagementApps) || d(DangerousApps) || d(CloakingApps))
    ensures Fires(d, PROPS) == (d(TestKeys) || d(DangerousProps))
    ensures Fires(d, PATHS) == (d(DangerousPaths) || d(WrongPathPermissions))
    ensures Fires(d, BUSYBOX) == d(BusyBoxBinary)
  {
  }
}

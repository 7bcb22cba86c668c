/**
  The threshold verdict of `isDeviceSuspicious`: count the enabled families
  whose probe-OR is true and compare the count with `minFamilies`.
*/
module Aggregation {
  import opened Options
  import opened Families
  import opened Probes

  /** Kotlin's `Int`. */
  type Int32 = x: int | -0x8000_0000 <= x < 0x8000_0000

  /** The families used when no set is given: the first three. */
  const DefaultFamilies: set<RootFamily> := {BINARIES, PACKAGES, PROPS}

  /** The default of the `minFamilies` parameter. */
  const DefaultMinFamilies: Int32 := 2

  /** `enabledFamilies ?: setOf(BINARIES, PACKAGES, PROPS)`. */
  function EffectiveFamilies(enabled: Option<set<RootFamily>>): set<RootFamily> {
    enabled.OrElse(DefaultFamilies)
  }

  /** The enabled families that are triggered. */
  function Triggered(d: Detector, enabled: set<RootFamily>): (t: set<RootFamily>)
    ensures t <= enabled
  {
    set f | f in enabled && Fires(d, f)
  }

  /** The verdict: at least `minFamilies` enabled families are triggered. */
  predicate Suspicious(d: Detector, enabled: set<RootFamily>, minFamilies: int) {
    |Triggered(d, enabled)| >= minFamilies
  }

  predicate Distinct(fs: seq<RootFamily>) {
    forall i, j :: 0 <= i < j < |fs| ==> fs[i] != fs[j]
  }

  /** `if (familyTriggered) triggeredFamilies += 1`: the counter's step for one family. */
  function Increment(d: Detector, enabled: set<RootFamily>, f: RootFamily): nat {
    if f in enabled && Fires(d, f) then 1 else 0
  }

  /** One increment per family of `fs` that is enabled and triggered. */
  function CountIn(d: Detector, enabled: set<RootFamily>, fs: seq<RootFamily>): nat {
    if |fs| == 0 then 0 else Increment(d, enabled, fs[0]) + CountIn(d, enabled, fs[1..])
  }

  /** The families of `fs` that are enabled and triggered. */
  function TriggeredAmong(d: Detector, enabled: set<RootFamily>, fs: seq<RootFamily>): set<RootFamily> {
    set f | f in fs && f in enabled && Fires(d, f)
  }

  /** Splitting off the head of a list splits off at most that family. */
  lemma TriggeredAmongCons(d: Detector, enabled: set<RootFamily>, fs: seq<RootFamily>)
    requires |fs| > 0
    ensures TriggeredAmong(d, enabled, fs) ==
      TriggeredAmong(d, enabled, fs[1..]) + (if fs[0] in enabled && Fires(d, fs[0]) then {fs[0]} else {})
  {
  }

  /** Counting the families of a duplicate-free list one by one gives the
      size of the set of triggered ones among them. */
  lemma {:induction false} CountInIsCardinality(d: Detector, enabled: set<RootFamily>, fs: seq<RootFamily>)
    requires Distinct(fs)
    ensures CountIn(d, enabled, fs) == |TriggeredAmong(d, enabled, fs)|
  {
    if |fs| > 0 {
      var tail := fs[1..];
      CountInIsCardinality(d, enabled, tail);
      TriggeredAmongCons(d, enabled, fs);
      assert fs[0] !in TriggeredAmong(d, enabled, tail);
    }
  }

  /** The counter of `isDeviceSuspicious`, written out family by family. */
  lemma CountInAllFamilies(d: Detector, enabled: set<RootFamily>)
    ensures CountIn(d, enabled, AllFamilies) ==
      Increment(d, enabled, BINARIES) + Increment(d, enabled, PACKAGES) + Increment(d, enabled, PROPS) +
      Increment(d, enabled, PATHS) + Increment(d, enabled, BUSYBOX)
  {
    var e := enabled;
    assert [BUSYBOX][1..] == [];
    assert CountIn(d, e, [BUSYBOX]) == Increment(d, e, BUSYBOX);
    assert [PATHS, BUSYBOX][1..] == [BUSYBOX];
    assert CountIn(d, e, [PATHS, BUSYBOX]) == Increment(d, e, PATHS) + CountIn(d, e, [BUSYBOX]);
    assert [PROPS, PATHS, BUSYBOX][1..] == [PATHS, BUSYBOX];
    assert CountIn(d, e, [PROPS, PATHS, BUSYBOX]) ==
      Increment(d, e, PROPS) + CountIn(d, e, [PATHS, BUSYBOX]);
    assert [PACKAGES, PROPS, PATHS, BUSYBOX][1..] == [PROPS, PATHS, BUSYBOX];
    assert CountIn(d, e, [PACKAGES, PROPS, PATHS, BUSYBOX]) ==
      Increment(d, e, PACKAGES) + CountIn(d, e, [PROPS, PATHS, BUSYBOX]);
    assert AllFamilies[1..] == [PACKAGES, PROPS, PATHS, BUSYBOX];
  }

  /** The number of triggered families is the sum of one increment per
      family, taken in declaration order. */
  lemma TriggeredCardinality(d: Detector, enabled: set<RootFamily>)
    ensures |Triggered(d, enabled)| == CountIn(d, enabled, AllFamilies)
  {
    CountInIsCardinality(d, enabled, AllFamilies);
    forall f: RootFamily ensures f in AllFamilies {
      AllFamiliesEnumerates(f);
    }
    assert TriggeredAmong(d, enabled, AllFamilies) == Triggered(d, enabled);
  }

  /** `isDeviceSuspicious(rootBeer, enabledFamilies, minFamilies)`: the
      five per-family flags, the counter, and the final comparison. */
  method IsDeviceSuspicious(
    d: Detector, enabledFamilies: Option<set<RootFamily>> := None, minFamilies: Int32 := DefaultMinFamilies)
    returns (suspicious: bool)
    ensures suspicious <==> |set f | f in EffectiveFamilies(enabledFamilies) && Fires(d, f)| >= minFamilies
  {
    var families := EffectiveFamilies(enabledFamilies);

    var binariesTriggered := BINARIES in families &&
      (d(SuBinary) || d(SuExists) || d(RwSystem) || d(RootNative));
    var packagesTriggered := PACKAGES in families &&
      (d(RootManagementApps) || d(DangerousApps) || d(CloakingApps));
    var propsTriggered := PROPS in families && (d(TestKeys) || d(DangerousProps));
    var pathsTriggered := PATHS in families && (d(DangerousPaths) || d(WrongPathPermissions));
    var busyboxTriggered := BUSYBOX in families && d(BusyBoxBinary);

    var triggeredFamilies: Int32 := 0;
    if binariesTriggered { triggeredFamilies := triggeredFamilies + 1; }
    if packagesTriggered { triggeredFamilies := triggeredFamilies + 1; }
    if propsTriggered { triggeredFamilies := triggeredFamilies + 1; }
    if pathsTriggered { triggeredFamilies := triggeredFamilies + 1; }
    if busyboxTriggered { triggeredFamilies := triggeredFamilies + 1; }

    FiresSpelledOut(d);
    TriggeredCardinality(d, families);
    CountInAllFamilies(d, families);
    suspicious := triggeredFamilies >= minFamilies;
  }

  /** The number of triggered families lies between zero and the number of
      enabled families, so it never exceeds five. */
  lemma TriggeredBounds(d: Detector, enabled: set<RootFamily>)
    ensures |Triggered(d, enabled)| <= |enabled| <= 5
  {
    var all := set f | f in AllFamilies;
    forall f: RootFamily ensures f in all {
      AllFamiliesEnumerates(f);
    }
    assert all == {BINARIES, PACKAGES, PROPS, PATHS, BUSYBOX};
    SubsetCardinality(Triggered(d, enabled), enabled);
    SubsetCardinality(enabled, all);
  }

  lemma SubsetCardinality<T>(a: set<T>, b: set<T>)
    requires a <= b
    ensures |a| <= |b|
  {
    assert b == a + (b - a);
  }

  /** A family counts iff it is enabled and one of the probes it owns reports true. */
  lemma TriggeredMembership(d: Detector, enabled: set<RootFamily>, f: RootFamily)
    ensures f in Triggered(d, enabled) <==> f in enabled && exists p :: Owner(p) == f && d(p)
  {
  }

  /** A missing set stands for the three default families; a given set,
      even an empty one, is used as it is and an empty one triggers nothing. */
  lemma EffectiveFamiliesDefaults(d: Detector, s: set<RootFamily>)
    ensures EffectiveFamilies(None) == {BINARIES, PACKAGES, PROPS}
    ensures EffectiveFamilies(Some(s)) == s
    ensures Triggered(d, EffectiveFamilies(Some({}))) == {}
  {
  }

  /** A threshold of zero or less is always met, even with no family enabled. */
  lemma NonPositiveThresholdAlwaysSuspicious(d: Detector, enabled: set<RootFamily>, minFamilies: int)
    requires minFamilies <= 0
    ensures Suspicious(d, enabled, minFamilies)
  {
  }

  /** A threshold above the number of enabled families is never met. */
  lemma ThresholdAboveEnabledNeverSuspicious(d: Detector, enabled: set<RootFamily>, minFamilies: int)
    requires minFamilies > |enabled|
    ensures !Suspicious(d, enabled, minFamilies)
  {
    TriggeredBounds(d, enabled);
  }

  /** Enabling more families never turns a suspicious verdict into a clean one. */
  lemma SuspiciousMonotoneInFamilies(d: Detector, enabled: set<RootFamily>, enabled': set<RootFamily>, minFamilies: int)
    requires enabled <= enabled'
    ensures Suspicious(d, enabled, minFamilies) ==> Suspicious(d, enabled', minFamilies)
  {
    SubsetCardinality(Triggered(d, enabled), Triggered(d, enabled'));
  }

  /** Lowering the threshold never turns a suspicious verdict into a clean one. */
  lemma SuspiciousMonotoneInThreshold(d: Detector, enabled: set<RootFamily>, minFamilies: int, minFamilies': int)
    requires minFamilies' <= minFamilies
    ensures Suspicious(d, enabled, minFamilies) ==> Suspicious(d, enabled, minFamilies')
  {
  }

  /** More probes reporting true never turns a suspicious verdict into a clean one. */
  lemma SuspiciousMonotoneInDetector(d: Detector, d': Detector, enabled: set<RootFamily>, minFamilies: int)
    requires forall p :: d(p) ==> d'(p)
    ensures Suspicious(d, enabled, minFamilies) ==> Suspicious(d', enabled, minFamilies)
  {
    forall f | f in enabled ensures Fires(d, f) ==> Fires(d', f) {
      FiresMonotone(d, d', f);
    }
    SubsetCardinality(Triggered(d, enabled), Triggered(d', enabled));
  }

  /** A disabled family never contributes: detectors that agree on the
      probes of the enabled families give the same triggered set. */
  lemma DisabledFamiliesIgnored(d: Detector, d': Detector, enabled: set<RootFamily>)
    requires forall p :: Owner(p) in enabled ==> d(p) == d'(p)
    ensures Triggered(d, enabled) == Triggered(d', enabled)
  {
  }
}

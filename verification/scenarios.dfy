/**
  Worked cases of the `jailbroken` call on concrete probe readings.
*/
module Scenarios {
  import opened Options
  import opened CaseFold
  import opened Families
  import opened Probes
  import opened Aggregation
  import opened MethodCall

  /** Only the su-binary probe reports true. */
  function OnlySuBinary(): Detector {
    p => p == SuBinary
  }

  /** The su-binary and dangerous-properties probes report true. */
  function SuBinaryAndDangerousProps(): Detector {
    p => p == SuBinary || p == DangerousProps
  }

  /** Only the busybox probe reports true. */
  function OnlyBusyBox(): Detector {
    p => p == BusyBoxBinary
  }

  /** With the defaults, one triggered family (BINARIES) is not enough. */
  lemma DefaultsOneFamilyIsClean()
    ensures !Suspicious(OnlySuBinary(), EffectiveFamilies(None), DefaultMinFamilies)
  {
    var d := OnlySuBinary();
    FiresSpelledOut(d);
    assert Triggered(d, DefaultFamilies) == {BINARIES};
  }

  /** With the defaults, BINARIES and PROPS together reach the threshold. */
  lemma DefaultsTwoFamiliesIsSuspicious()
    ensures Suspicious(SuBinaryAndDangerousProps(), EffectiveFamilies(None), DefaultMinFamilies)
  {
    var d := SuBinaryAndDangerousProps();
    FiresSpelledOut(d);
    assert Triggered(d, DefaultFamilies) == {BINARIES, PROPS};
  }

  /** `isDeviceSuspicious(rootBeer)` with both defaults and only su-binary
      reporting true returns false. */
  method DefaultsOneFamilyCall() returns (suspicious: bool)
    ensures !suspicious
  {
    var d := OnlySuBinary();
    suspicious := IsDeviceSuspicious(d);
    DefaultsOneFamilyIsClean();
    assert (set f | f in EffectiveFamilies(None) && Fires(d, f)) == Triggered(d, DefaultFamilies);
  }

  /** `isDeviceSuspicious(rootBeer)` with both defaults and su-binary and
      dangerous-props reporting true returns true. */
  method DefaultsTwoFamiliesCall() returns (suspicious: bool)
    ensures suspicious
  {
    var d := SuBinaryAndDangerousProps();
    suspicious := IsDeviceSuspicious(d);
    DefaultsTwoFamiliesIsSuspicious();
    assert (set f | f in EffectiveFamilies(None) && Fires(d, f)) == Triggered(d, DefaultFamilies);
  }

  /** The same family named twice, in two casings. */
  const RepeatedBusyBox: seq<string> := ["BUSYBOX", "busybox"]

  /** Both spellings used below resolve to BUSYBOX. */
  lemma BusyBoxSpellings()
    ensures FromKey("BUSYBOX") == Some(BUSYBOX)
    ensures FromKey("busybox") == Some(BUSYBOX)
  {
    assert EqualsIgnoreCase(Key(BUSYBOX), "BUSYBOX");
    assert EqualsIgnoreCase(Key(BUSYBOX), "busybox");
  }

  /** `["BUSYBOX", "busybox"]` enables one family only. */
  lemma RepeatedBusyBoxName()
    ensures ResolveNames(RepeatedBusyBox) == {BUSYBOX}
  {
    BusyBoxSpellings();
    RepeatedFamilyCollapses("BUSYBOX", "busybox", BUSYBOX);
  }

  /** A `jailbroken` call whose list names exactly one family, with
      `minFamilies = 1`, is suspicious as soon as that family fires. */
  method SingleFamilyCall(d: Detector, names: seq<string>, f: RootFamily) returns (suspicious: bool)
    requires ResolveNames(names) == {f}
    ensures suspicious <==> Fires(d, f)
  {
    suspicious := Jailbroken(d, JailbrokenArgs(Some(names), Some(1)));
    if Fires(d, f) {
      assert Triggered(d, {f}) == {f};
    } else {
      assert Triggered(d, {f}) == {};
    }
  }

  /** The `jailbroken` call with `enabledFamilies = ["BUSYBOX", "busybox"]`,
      `minFamilies = 1` and only busybox reporting true: the two names are
      one family, and busybox alone reaches the threshold. */
  method RepeatedBusyBoxCall() returns (suspicious: bool)
    ensures suspicious
  {
    var d := OnlyBusyBox();
    RepeatedBusyBoxName();
    FiresSpelledOut(d);
    suspicious := SingleFamilyCall(d, RepeatedBusyBox, BUSYBOX);
  }

  /** `binaries`, `BINARIES`, `Binaries` and `bınarıes` (with dotless i)
      all resolve to BINARIES. */
  lemma BinariesSpellings()
    ensures FromKey("binaries") == Some(BINARIES)
    ensures FromKey("BINARIES") == Some(BINARIES)
    ensures FromKey("Binaries") == Some(BINARIES)
    ensures FromKey("b\U{0131}nar\U{0131}es") == Some(BINARIES)
  {
    assert EqualsIgnoreCase(Key(BINARIES), "binaries");
    assert EqualsIgnoreCase(Key(BINARIES), "BINARIES");
    assert EqualsIgnoreCase(Key(BINARIES), "Binaries");
    assert EqualsIgnoreCase(Key(BINARIES), "b\U{0131}nar\U{0131}es");
  }
}

/**
  The `jailbroken` branch of `onMethodCall`: reading the optional
  `enabledFamilies` and `minFamilies` arguments, normalising them, and
  handing them to `isDeviceSuspicious`.
*/
module MethodCall {
  import opened Options
  import opened CaseFold
  import opened Families
  import opened Probes
  import opened Aggregation

  /** The arguments of a `jailbroken` call; `None` is an absent argument. */
  datatype JailbrokenArgs = JailbrokenArgs(enabledFamilies: Option<seq<string>>, minFamilies: Option<Int32>)

  /** Some name of the list spells the key of `f`, ignoring case. */
  predicate Listed(names: seq<string>, f: RootFamily) {
    exists i :: 0 <= i < |names| && EqualsIgnoreCase(Key(f), names[i])
  }

  /** `names.mapNotNull { RootFamily.fromKey(it) }.toSet()`: unknown names
      are dropped and repeated families collapse. */
  function ResolveNames(names: seq<string>): (r: set<RootFamily>)
    ensures forall f :: f in r <==> Listed(names, f)
  {
    if |names| == 0 then {}
    else
      var rest := ResolveNames(names[1..]);
      assert forall f :: Listed(names, f) <==> EqualsIgnoreCase(Key(f), names[0]) || Listed(names[1..], f) by {
        assert forall i :: 0 < i < |names| ==> names[i] == names[1..][i - 1];
      }
      match FromKey(names[0])
      case Some(f) => {f} + rest
      case None => rest
  }

  /** The `enabledFamilies` argument as a set: absent stays absent, a given
      list (even an empty one) becomes the set of families it names. */
  function ParseEnabledFamilies(arg: Option<seq<string>>): (r: Option<set<RootFamily>>)
    ensures r.None? <==> arg.None?
    ensures arg.Some? ==> forall f :: f in r.value <==> Listed(arg.value, f)
  {
    match arg
    case None => None
    case Some(names) => Some(ResolveNames(names))
  }

  /** The `jailbroken` call: parse the arguments, default the threshold to
      two, and return the verdict of `isDeviceSuspicious`. */
  method Jailbroken(d: Detector, args: JailbrokenArgs) returns (suspicious: bool)
    ensures args.enabledFamilies.None? ==>
      (suspicious <==> |Triggered(d, {BINARIES, PACKAGES, PROPS})| >= args.minFamilies.OrElse(2))
    ensures args.enabledFamilies.Some? ==>
      (suspicious <==>
        |set f | f in AllFamilies && Listed(args.enabledFamilies.value, f) && Fires(d, f)|
          >= args.minFamilies.OrElse(2))
    ensures args.enabledFamilies.Some? ==>
      (suspicious <==> |Triggered(d, ResolveNames(args.enabledFamilies.value))| >= args.minFamilies.OrElse(2))
  {
    var enabledFamilies := ParseEnabledFamilies(args.enabledFamilies);
    var minFamilies := args.minFamilies.OrElse(DefaultMinFamilies);
    suspicious := IsDeviceSuspicious(d, enabledFamilies, minFamilies);
    if args.enabledFamilies.Some? {
      forall f: RootFamily ensures f in AllFamilies {
        AllFamiliesEnumerates(f);
      }
      assert (set f | f in AllFamilies && Listed(args.enabledFamilies.value, f) && Fires(d, f))
          == Triggered(d, enabledFamilies.value);
    }
  }

  /** An unrecognised name is dropped wherever it appears in the list. */
  lemma UnknownNameDropped(before: seq<string>, unknown: string, after: seq<string>)
    requires FromKey(unknown).None?
    ensures ResolveNames(before + [unknown] + after) == ResolveNames(before + after)
  {
    var withName := before + [unknown] + after;
    var without := before + after;
    forall f | Listed(withName, f) ensures Listed(without, f) {
      var i :| 0 <= i < |withName| && EqualsIgnoreCase(Key(f), withName[i]);
      if i < |before| {
        assert without[i] == withName[i];
      } else if i == |before| {
        assert false;
      } else {
        assert without[i - 1] == withName[i];
      }
    }
    forall f | Listed(without, f) ensures Listed(withName, f) {
      var i :| 0 <= i < |without| && EqualsIgnoreCase(Key(f), without[i]);
      if i < |before| {
        assert withName[i] == without[i];
      } else {
        assert withName[i + 1] == without[i];
      }
    }
  }

  /** Some name of the list spells `word`, ignoring case. */
  predicate Spelled(names: seq<string>, word: string) {
    exists j :: 0 <= j < |names| && EqualsIgnoreCase(word, names[j])
  }

  /** Every name of `a` is spelled, up to case, somewhere in `b`. */
  predicate Covers(b: seq<string>, a: seq<string>) {
    forall i {:trigger Spelled(b, a[i])} :: 0 <= i < |a| ==> Spelled(b, a[i])
  }

  /** If `b` spells every name of `a`, `b` enables every family `a` enables. */
  lemma CoveredFamilies(a: seq<string>, b: seq<string>, f: RootFamily)
    requires Covers(b, a)
    requires Listed(a, f)
    ensures Listed(b, f)
  {
    var i :| 0 <= i < |a| && EqualsIgnoreCase(Key(f), a[i]);
    assert Spelled(b, a[i]);
    var j :| 0 <= j < |b| && EqualsIgnoreCase(a[i], b[j]);
    EqualsIgnoreCaseTransitive(Key(f), a[i], b[j]);
  }

  /** Lists that name the same words up to case, in any order and with any
      repetition, enable the same families. */
  lemma SameWordsSameFamilies(a: seq<string>, b: seq<string>)
    requires Covers(b, a) && Covers(a, b)
    ensures ResolveNames(a) == ResolveNames(b)
  {
    forall f | Listed(a, f) ensures Listed(b, f) {
      CoveredFamilies(a, b, f);
    }
    forall f | Listed(b, f) ensures Listed(a, f) {
      CoveredFamilies(b, a, f);
    }
  }

  /** An empty list enables no family: it is not read as an absent argument. */
  lemma EmptyListEnablesNothing(d: Detector, minFamilies: int)
    ensures ParseEnabledFamilies(Some([])) == Some({})
    ensures Suspicious(d, EffectiveFamilies(ParseEnabledFamilies(Some([]))), minFamilies) <==> minFamilies <= 0
  {
  }

  /** Two names that resolve to the same family enable that family once. */
  lemma RepeatedFamilyCollapses(w: string, v: string, f: RootFamily)
    requires FromKey(w) == Some(f) && FromKey(v) == Some(f)
    ensures ResolveNames([w, v]) == {f}
  {
  }
}

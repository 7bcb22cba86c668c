# Root-family verdict engine of flutter_jailbreak_detection_plus (Android side)

A Dafny model of the part of `FlutterJailbreakDetectionPlugin.kt` that decides
whether an Android device looks rooted. RootBeer's twelve checks are grouped
into five signal families: `BINARIES`, `PACKAGES`, `PROPS`, `PATHS` and
`BUSYBOX`. A family is triggered when any of its checks reports true. The
device is "suspicious" when at least `minFamilies` of the enabled families are
triggered.

Modules, one per concept of the source:

- `CaseFold` (`case_fold.dfy`): Java's case-insensitive string comparison,
  `String.equalsIgnoreCase` as on Android, which `fromKey` relies on.
- `Families` (`families.dfy`): `enum class RootFamily`, its keys, and
  `RootFamily.fromKey`.
- `Probes` (`probes.dfy`): the RootBeer checks, the detector (the reading of
  every check at call time), and the table saying which checks belong to which
  family.
- `Aggregation` (`aggregation.dfy`): `isDeviceSuspicious`. The method
  `IsDeviceSuspicious` follows the source: five hand-written per-family ORs, a
  counter, and a comparison. `Triggered` and `Suspicious` are the reference
  definitions it is proved against: the set of enabled families whose
  probe-OR is true, and the comparison of its size with the threshold.
- `MethodCall` (`method_call.dfy`): the `jailbroken` branch of `onMethodCall`,
  which parses and defaults the arguments and then calls `isDeviceSuspicious`.
- `Scenarios` (`scenarios.dfy`): worked cases on concrete probe readings.
- `Options` (`options.dfy`): Kotlin's nullable values and the elvis operator
  `?:`.

The model follows the code, including where a caller might not expect it:

- The threshold may be any 32-bit `Int`. The code does not reject a negative
  `minFamilies`, and such a threshold always gives "suspicious".
- The three default families replace the enabled set only when the argument
  is absent. An explicitly empty list enables no family.
- `FlutterJailbreakDetectionPlugin.kt` returns only the boolean verdict; no
  mode returns a list of triggered families.

## Model

| member | source | states |
|---|---|---|
| `CaseFold.EqualsIgnoreCaseIsPointwise` | android/src/main/kotlin/yazan/alkamsheh/flutterjailbreakdetectionplus/FlutterJailbreakDetectionPlugin.kt:25 | Characterises `EqualsIgnoreCase`, the model of `it.key.equals(key, ignoreCase = true)`: the comparison used by `key.equals(other, ignoreCase = true)` holds exactly when the lengths agree and every position passes the per-character test. |
| `CaseFold.CharsMatchIsSameFold` | android/src/main/kotlin/yazan/alkamsheh/flutterjailbreakdetectionplus/FlutterJailbreakDetectionPlugin.kt:25 | Two characters match ignoring case exactly when their lower-cased upper-case forms are equal. So the comparison is an equivalence relation. |
| `CaseFold.EqualsIgnoreCaseTransitive` | android/src/main/kotlin/yazan/alkamsheh/flutterjailbreakdetectionplus/FlutterJailbreakDetectionPlugin.kt:25 | Matching ignoring case is transitive. |
| `CaseFold.MatchesOfAsciiUpper` | android/src/main/kotlin/yazan/alkamsheh/flutterjailbreakdetectionplus/FlutterJailbreakDetectionPlugin.kt:25 | The characters that match an upper-case ASCII key letter are the letter itself and its lower-case form. They also include dotted and dotless i for `I`, long s for `S`, and the Kelvin sign for `K`. |
| `CaseFold.AsciiCaseRoundTrip` | android/src/main/kotlin/yazan/alkamsheh/flutterjailbreakdetectionplus/FlutterJailbreakDetectionPlugin.kt:25 | Upper-casing undoes lower-casing on ASCII letters and the other way round, and each maps one case onto the other. |
| `CaseFold.LowercaseMatches` | android/src/main/kotlin/yazan/alkamsheh/flutterjailbreakdetectionplus/FlutterJailbreakDetectionPlugin.kt:25 | Any string matches its ASCII lower-case spelling, ignoring case. |
| `Families.Key` | android/src/main/kotlin/yazan/alkamsheh/flutterjailbreakdetectionplus/FlutterJailbreakDetectionPlugin.kt:15-20 | Every family's `key` is at least five characters long and consists only of upper-case ASCII letters. So a comparison against a key meets only the characters of the case table, and `FromKey` is exact. |
| `Families.AllFamiliesEnumerates` | android/src/main/kotlin/yazan/alkamsheh/flutterjailbreakdetectionplus/FlutterJailbreakDetectionPlugin.kt:15-21 | `values()` lists each of the five families exactly once. |
| `Families.KeyMatchUnique` | android/src/main/kotlin/yazan/alkamsheh/flutterjailbreakdetectionplus/FlutterJailbreakDetectionPlugin.kt:15-21 | No string matches the keys of two different families ignoring case. This makes the key-to-family lookup unambiguous. |
| `Families.FirstMatch` | android/src/main/kotlin/yazan/alkamsheh/flutterjailbreakdetectionplus/FlutterJailbreakDetectionPlugin.kt:25 | `firstOrNull` over a list of families returns null exactly when no listed key matches. Otherwise it returns a listed family whose key matches. |
| `Families.FromKey` | android/src/main/kotlin/yazan/alkamsheh/flutterjailbreakdetectionplus/FlutterJailbreakDetectionPlugin.kt:24-26 | `fromKey(s)` is `f` exactly when `f`'s key equals `s` ignoring case. It is null exactly when no key matches. It never returns a family whose key differs from `s` ignoring case. |
| `Families.KeyRoundTrip` | android/src/main/kotlin/yazan/alkamsheh/flutterjailbreakdetectionplus/FlutterJailbreakDetectionPlugin.kt:15-26 | A family's key, as written or in lower case, resolves back to that family. The lower-case spelling has the same length and differs from the key at every position, so the round trip really crosses case. |
| `Families.FromKeyIgnoresCase` | android/src/main/kotlin/yazan/alkamsheh/flutterjailbreakdetectionplus/FlutterJailbreakDetectionPlugin.kt:24-26 | Two strings equal ignoring case resolve to the same result, for example `binaries`, `BINARIES` and `Binaries` (see `Scenarios.BinariesSpellings`). |
| `Probes.Members` | android/src/main/kotlin/yazan/alkamsheh/flutterjailbreakdetectionplus/FlutterJailbreakDetectionPlugin.kt:101-134 | The checks ORed for each family, in evaluation order; no family's OR is empty. |
| `Probes.MembersPartitionProbes` | android/src/main/kotlin/yazan/alkamsheh/flutterjailbreakdetectionplus/FlutterJailbreakDetectionPlugin.kt:101-134 | Each of the twelve checks is a member of exactly one family. |
| `Probes.AnyProbe` | android/src/main/kotlin/yazan/alkamsheh/flutterjailbreakdetectionplus/FlutterJailbreakDetectionPlugin.kt:101-134 | The short-circuit OR over a list of checks is true exactly when some listed check reports true. |
| `Probes.FiresIffOwnedProbe` | android/src/main/kotlin/yazan/alkamsheh/flutterjailbreakdetectionplus/FlutterJailbreakDetectionPlugin.kt:101-134 | A family's probe-OR is true exactly when some check belonging to it reports true. |
| `Probes.FiresSpelledOut` | android/src/main/kotlin/yazan/alkamsheh/flutterjailbreakdetectionplus/FlutterJailbreakDetectionPlugin.kt:101-134 | The membership table agrees with the five ORs written out in the source: BINARIES has su-binary, su-exists, RW-system and native; PACKAGES has root-management, dangerous-apps and cloaking; PROPS has test-keys and dangerous-props; PATHS has dangerous-paths and wrong-permissions; BUSYBOX has busybox. |
| `Probes.FiresDependsOnlyOnOwnProbes` | android/src/main/kotlin/yazan/alkamsheh/flutterjailbreakdetectionplus/FlutterJailbreakDetectionPlugin.kt:101-134 | Whether a family triggers depends only on the readings of its own checks. |
| `Probes.FiresMonotone` | android/src/main/kotlin/yazan/alkamsheh/flutterjailbreakdetectionplus/FlutterJailbreakDetectionPlugin.kt:101-134 | More checks reporting true never un-triggers a family. |
| `Aggregation.TriggeredAmongCons` | android/src/main/kotlin/yazan/alkamsheh/flutterjailbreakdetectionplus/FlutterJailbreakDetectionPlugin.kt:136-142 | Adding one family to the families inspected adds that family to the triggered set only if it is enabled and triggered. |
| `Aggregation.CountInIsCardinality` | android/src/main/kotlin/yazan/alkamsheh/flutterjailbreakdetectionplus/FlutterJailbreakDetectionPlugin.kt:136-142 | Adding one per enabled, triggered family of a duplicate-free list yields the size of the set of those families. |
| `Aggregation.CountInAllFamilies` | android/src/main/kotlin/yazan/alkamsheh/flutterjailbreakdetectionplus/FlutterJailbreakDetectionPlugin.kt:136-142 | Counting over `values()` is the source's five conditional increments in declaration order. |
| `Aggregation.TriggeredCardinality` | android/src/main/kotlin/yazan/alkamsheh/flutterjailbreakdetectionplus/FlutterJailbreakDetectionPlugin.kt:136-142 | The final counter equals the number of enabled families whose probe-OR is true. |
| `Aggregation.IsDeviceSuspicious` | android/src/main/kotlin/yazan/alkamsheh/flutterjailbreakdetectionplus/FlutterJailbreakDetectionPlugin.kt:89-147 | `isDeviceSuspicious` returns true exactly when the number of effective families whose probe-OR is true is at least `minFamilies`. The effective set is the given one, or BINARIES, PACKAGES and PROPS when the argument is null. Both parameters carry the source's defaults, null and 2. |
| `Aggregation.TriggeredBounds` | android/src/main/kotlin/yazan/alkamsheh/flutterjailbreakdetectionplus/FlutterJailbreakDetectionPlugin.kt:136-142 | The triggered count lies between 0 and the size of the effective set, and that size is at most 5. |
| `Aggregation.TriggeredMembership` | android/src/main/kotlin/yazan/alkamsheh/flutterjailbreakdetectionplus/FlutterJailbreakDetectionPlugin.kt:101-134 | A family counts exactly when it is enabled and one of its own checks reports true. |
| `Aggregation.EffectiveFamiliesDefaults` | android/src/main/kotlin/yazan/alkamsheh/flutterjailbreakdetectionplus/FlutterJailbreakDetectionPlugin.kt:93-97 | A null enabled set becomes exactly {BINARIES, PACKAGES, PROPS}. A given set, including an empty one, is used as it is, and an empty set triggers nothing. |
| `Aggregation.NonPositiveThresholdAlwaysSuspicious` | android/src/main/kotlin/yazan/alkamsheh/flutterjailbreakdetectionplus/FlutterJailbreakDetectionPlugin.kt:146 | A threshold of zero or less always gives true, even when the enabled set is empty. |
| `Aggregation.ThresholdAboveEnabledNeverSuspicious` | android/src/main/kotlin/yazan/alkamsheh/flutterjailbreakdetectionplus/FlutterJailbreakDetectionPlugin.kt:146 | A threshold above the number of enabled families always gives false. |
| `Aggregation.SuspiciousMonotoneInFamilies` | android/src/main/kotlin/yazan/alkamsheh/flutterjailbreakdetectionplus/FlutterJailbreakDetectionPlugin.kt:101-146 | Enlarging the enabled set never turns true into false. |
| `Aggregation.SuspiciousMonotoneInThreshold` | android/src/main/kotlin/yazan/alkamsheh/flutterjailbreakdetectionplus/FlutterJailbreakDetectionPlugin.kt:146 | Lowering the threshold never turns true into false. |
| `Aggregation.SuspiciousMonotoneInDetector` | android/src/main/kotlin/yazan/alkamsheh/flutterjailbreakdetectionplus/FlutterJailbreakDetectionPlugin.kt:101-146 | More checks reporting true never turns true into false. |
| `Aggregation.DisabledFamiliesIgnored` | android/src/main/kotlin/yazan/alkamsheh/flutterjailbreakdetectionplus/FlutterJailbreakDetectionPlugin.kt:101-134 | A disabled family never contributes. Two detectors that agree on the checks of the enabled families give the same triggered set, whatever the other checks report. |
| `MethodCall.ResolveNames` | android/src/main/kotlin/yazan/alkamsheh/flutterjailbreakdetectionplus/FlutterJailbreakDetectionPlugin.kt:62-68 | `mapNotNull { fromKey(it) }.toSet()` contains exactly the families whose key some name of the list spells, ignoring case. |
| `MethodCall.ParseEnabledFamilies` | android/src/main/kotlin/yazan/alkamsheh/flutterjailbreakdetectionplus/FlutterJailbreakDetectionPlugin.kt:59-68 | The parsed set is null exactly when the argument is absent. Otherwise it holds exactly the families the list names, ignoring case. |
| `MethodCall.Jailbroken` | android/src/main/kotlin/yazan/alkamsheh/flutterjailbreakdetectionplus/FlutterJailbreakDetectionPlugin.kt:56-72 | The `jailbroken` call compares the number of triggered families with the given `minFamilies`, or with 2 when it is absent. With no list it counts among BINARIES, PACKAGES and PROPS. With a list it counts among the families some name spells. |
| `MethodCall.UnknownNameDropped` | android/src/main/kotlin/yazan/alkamsheh/flutterjailbreakdetectionplus/FlutterJailbreakDetectionPlugin.kt:62-68 | A name that matches no key is dropped wherever it appears, and the rest of the list still resolves. |
| `MethodCall.CoveredFamilies` | android/src/main/kotlin/yazan/alkamsheh/flutterjailbreakdetectionplus/FlutterJailbreakDetectionPlugin.kt:62-68 | When a list spells every name of another list up to case, it enables every family the other list enables. |
| `MethodCall.SameWordsSameFamilies` | android/src/main/kotlin/yazan/alkamsheh/flutterjailbreakdetectionplus/FlutterJailbreakDetectionPlugin.kt:62-68 | Two lists with the same names up to case enable the same set, whatever the order, casing or repetition. |
| `MethodCall.RepeatedFamilyCollapses` | android/src/main/kotlin/yazan/alkamsheh/flutterjailbreakdetectionplus/FlutterJailbreakDetectionPlugin.kt:62-68 | Two names that resolve to the same family give a one-element set. |
| `MethodCall.EmptyListEnablesNothing` | android/src/main/kotlin/yazan/alkamsheh/flutterjailbreakdetectionplus/FlutterJailbreakDetectionPlugin.kt:62-68 | An empty list gives the empty set, not null. The verdict is then true exactly when the threshold is 0 or less. |
| `Scenarios.DefaultsOneFamilyIsClean` | android/src/main/kotlin/yazan/alkamsheh/flutterjailbreakdetectionplus/FlutterJailbreakDetectionPlugin.kt:89-146 | With the defaults, only su-binary reporting true gives false, because one family is below the threshold of 2. |
| `Scenarios.DefaultsTwoFamiliesIsSuspicious` | android/src/main/kotlin/yazan/alkamsheh/flutterjailbreakdetectionplus/FlutterJailbreakDetectionPlugin.kt:89-146 | With the defaults, su-binary and dangerous-props reporting true gives true, because BINARIES and PROPS make 2 families. |
| `Scenarios.DefaultsOneFamilyCall` | android/src/main/kotlin/yazan/alkamsheh/flutterjailbreakdetectionplus/FlutterJailbreakDetectionPlugin.kt:89-146 | `isDeviceSuspicious(rootBeer)`, called with both defaults while only su-binary reports true, returns false. |
| `Scenarios.DefaultsTwoFamiliesCall` | android/src/main/kotlin/yazan/alkamsheh/flutterjailbreakdetectionplus/FlutterJailbreakDetectionPlugin.kt:89-146 | `isDeviceSuspicious(rootBeer)`, called with both defaults while su-binary and dangerous-props report true, returns true. |
| `Scenarios.BusyBoxSpellings` | android/src/main/kotlin/yazan/alkamsheh/flutterjailbreakdetectionplus/FlutterJailbreakDetectionPlugin.kt:24-26 | `BUSYBOX` and `busybox` both resolve to BUSYBOX. |
| `Scenarios.RepeatedBusyBoxName` | android/src/main/kotlin/yazan/alkamsheh/flutterjailbreakdetectionplus/FlutterJailbreakDetectionPlugin.kt:62-68 | The list `["BUSYBOX", "busybox"]` parses to the single family BUSYBOX. |
| `Scenarios.SingleFamilyCall` | android/src/main/kotlin/yazan/alkamsheh/flutterjailbreakdetectionplus/FlutterJailbreakDetectionPlugin.kt:56-72 | A `jailbroken` call with `minFamilies = 1` whose list names exactly one family returns true exactly when that family's probe-OR is true. |
| `Scenarios.RepeatedBusyBoxCall` | android/src/main/kotlin/yazan/alkamsheh/flutterjailbreakdetectionplus/FlutterJailbreakDetectionPlugin.kt:56-72 | The `jailbroken` call with `enabledFamilies = ["BUSYBOX", "busybox"]`, `minFamilies = 1` and only busybox reporting true returns true: the two names are one family, and it alone meets the threshold. |
| `Scenarios.BinariesSpellings` | android/src/main/kotlin/yazan/alkamsheh/flutterjailbreakdetectionplus/FlutterJailbreakDetectionPlugin.kt:24-26 | `binaries`, `BINARIES`, `Binaries` and `bınarıes` (with dotless i) all resolve to BINARIES. |

## Left out

- Plugin lifecycle and transport are not modelled: `onAttachedToEngine`, `onDetachedFromEngine`, the `MethodChannel`, and answering through `result.success` or `result.notImplemented` (lines 36-45, 55-57 and 72-77). `Jailbroken` models only the body of the `jailbroken` branch, and its return value stands for the value passed to `result.success`.
- `isDevMode` and the `developerMode` branch are not modelled. They read one Android setting and contain no logic.
- RootBeer's checks are not modelled. They read the file system, installed packages and system properties, and search natively for su. Their code is not part of this model, so a detector is a function giving each check's boolean result, supplied by the caller. An exception thrown by a check is not modelled either; in the source it would propagate out of `isDeviceSuspicious`.
- The `try`/`catch` around `fromKey` (lines 63-67) is not modelled. The list arrives from the message codec unchecked, so it may hold a `null`; Kotlin's parameter null-check in `fromKey` then throws, and the catch turns the element into `null`, which `mapNotNull` drops. The model's list holds only strings, so such elements are outside its domain. For a string, `fromKey` does not throw.
- `CaseFold`: the case table covers only the Unicode case mappings that reach an ASCII letter. These are the 26 ASCII pairs, U+0130, U+0131, U+017F and U+212A. Since every key is upper-case ASCII, comparisons against keys are exact, and so `FromKey`, `ResolveNames` and everything built on them are exact. For two arbitrary strings, `EqualsIgnoreCase` is narrower than Java's `String.equalsIgnoreCase` on Android; for example, it does not match `é` with `É`.
- `FromKeyIgnoresCase`: because of the narrower table, it speaks only of pairs of strings the modelled comparison relates.
- `FirstMatch`: the contract does not say the match is the first one in declaration order. `KeyMatchUnique` shows that at most one family can match, so first and only coincide.
- Jailbroken: its `minFamilies` parameter is an `Option<Int32>`, so it excludes the error path in which the message codec delivers a value outside the 32-bit range as a `Long`. In the source, `call.argument<Int>("minFamilies")` (line 60), or at the latest the unboxing at line 70, then throws `ClassCastException` inside the `jailbroken` branch, and the exception propagates out of `onMethodCall`.
- The Java string comparison counts lengths in UTF-16 code units, and the model counts Unicode scalar values. The two differ only for characters outside the Basic Multilingual Plane, and no such character matches an ASCII key letter.

/**
  The closed enumeration of RootBeer signal families (`enum class RootFamily`)
  with its string keys and the case-insensitive key lookup `fromKey`.
*/
module Families {
  import opened Options
  import opened CaseFold

  /** The five signal families, in declaration order. */
  datatype RootFamily = BINARIES | PACKAGES | PROPS | PATHS | BUSYBOX

  /** The wire-level key of a family (the enum's `key` property). */
  function Key(f: RootFamily): (k: string)
    ensures 5 <= |k|
    ensures forall i :: 0 <= i < |k| ==> IsAsciiUpper(k[i])
  {
    match f
    case BINARIES => "BINARIES"
    case PACKAGES => "PACKAGES"
    case PROPS => "PROPS"
    case PATHS => "PATHS"
    case BUSYBOX => "BUSYBOX"
  }

  /** `RootFamily.values()`: every family once, in declaration order. */
  const AllFamilies: seq<RootFamily> := [BINARIES, PACKAGES, PROPS, PATHS, BUSYBOX]

  /** Every family is listed in `AllFamilies`, and none twice. */
  lemma AllFamiliesEnumerates(f: RootFamily)
    ensures f in AllFamilies
    ensures forall i, j :: 0 <= i < j < |AllFamilies| ==> AllFamilies[i] != AllFamilies[j]
  {
  }

  /** No string matches the keys of two different families, ignoring case. */
  lemma KeyMatchUnique(s: string)
    ensures forall f, g :: EqualsIgnoreCase(Key(f), s) && EqualsIgnoreCase(Key(g), s) ==> f == g
  {
  }

  /** `fs.firstOrNull { it.key.equals(key, ignoreCase = true) }`. */
  function FirstMatch(fs: seq<RootFamily>, key: string): (r: Option<RootFamily>)
    ensures r.None? <==> forall i :: 0 <= i < |fs| ==> !EqualsIgnoreCase(Key(fs[i]), key)
    ensures forall f :: f in fs && EqualsIgnoreCase(Key(f), key) ==> r.Some?
    ensures r.Some? ==> r.value in fs && EqualsIgnoreCase(Key(r.value), key)
  {
    if |fs| == 0 then None
    else if EqualsIgnoreCase(Key(fs[0]), key) then Some(fs[0])
    else FirstMatch(fs[1..], key)
  }

  /** `RootFamily.fromKey(key)`: the family whose key equals `key` ignoring
      case, or `null` when there is none. */
  function FromKey(key: string): (r: Option<RootFamily>)
    ensures forall f :: r == Some(f) <==> EqualsIgnoreCase(Key(f), key)
    ensures r.None? <==> forall f :: !EqualsIgnoreCase(Key(f), key)
  {
    KeyMatchUnique(key);
    FirstMatch(AllFamilies, key)
  }

  /** A family's key, in upper or lower case, resolves to that family. */
  lemma KeyRoundTrip(f: RootFamily)
    ensures FromKey(Key(f)) == Some(f)
    ensures FromKey(AsciiLowercase(Key(f))) == Some(f)
    ensures |AsciiLowercase(Key(f))| == |Key(f)|
    ensures forall i :: 0 <= i < |Key(f)| ==> AsciiLowercase(Key(f))[i] != Key(f)[i]
  {
    EqualsIgnoreCaseReflexive(Key(f));
    LowercaseMatches(Key(f));
    EqualsIgnoreCaseSymmetric(AsciiLowercase(Key(f)), Key(f));
  }

  /** Lookup is case-insensitive: two spellings of the same word resolve alike. */
  lemma FromKeyIgnoresCase(a: string, b: string)
    requires EqualsIgnoreCase(a, b)
    ensures FromKey(a) == FromKey(b)
  {
    forall f: RootFamily
      ensures EqualsIgnoreCase(Key(f), a) <==> EqualsIgnoreCase(Key(f), b)
    {
      EqualsIgnoreCaseSymmetric(a, b);
      if EqualsIgnoreCase(Key(f), a) {
        EqualsIgnoreCaseTransitive(Key(f), a, b);
      }
      if EqualsIgnoreCase(Key(f), b) {
        EqualsIgnoreCaseTransitive(Key(f), b, a);
      }
    }
  }
}

/**
 * The application version (version.h): an unset version, or a set one
 * written as v<major>.<minor>[-p<patch>].
 */
module Version {
  import opened Wrappers
  import opened Decimal
  import opened Strings

  const VERSION_MAJOR: int := 1
  const VERSION_MINOR: int := 21
  const VERSION_PATCH: int := 0

  /** VERSION: the default constructor leaves it unset, the three-argument one sets all fields. */
  datatype Version = Unset | Set(major: int, minor: int, patch: int)

  /** VERSION::toStr: "" when unset; "-p<patch>" only when the patch number is not 0. */
  function ToStr(v: Version): (s: string)
    ensures v.Unset? <==> s == []
    ensures v.Set? ==> s[0] == 'v'
  {
    if v.Unset? then ""
    else
      "v" + IntToString(v.major) + "." + IntToString(v.minor)
      + (if v.patch != 0 then "-p" + IntToString(v.patch) else "")
  }

  /** A field of the version text: a non-empty run of decimal digits. */
  function Field(t: string): (r: Option<nat>)
    ensures r.Some? <==> t != [] && AllDigits(t)
  {
    if t != [] && AllDigits(t) then Some(DigitsValue(t)) else None
  }

  /** The text after the first '.': <minor>[-p<patch>], a missing suffix meaning patch 0. */
  function ParseTail(rest: string): (r: Option<(nat, nat)>)
  {
    var minorText := if '-' in rest then rest[..IndexOf(rest, '-')] else rest;
    var patchText := if '-' in rest then rest[IndexOf(rest, '-') + 1..] else "p0";
    if patchText == [] || patchText[0] != 'p' then None
    else
      match (Field(minorText), Field(patchText[1..]))
      case (Some(b), Some(c)) => Some((b, c))
      case _ => None
  }

  /** Reads a version back from the documented format: "" is the unset version. */
  function ParseVersion(s: string): (r: Option<Version>)
    ensures s == [] ==> r == Some(Unset)
    ensures r.Some? && r.value.Set? ==> s[0] == 'v' && r.value.major >= 0 && r.value.minor >= 0 && r.value.patch >= 0
  {
    if s == [] then Some(Unset)
    else if s[0] != 'v' || '.' !in s[1..] then None
    else
      var body := s[1..];
      var dot := IndexOf(body, '.');
      match (Field(body[..dot]), ParseTail(body[dot + 1..]))
      case (Some(a), Some((b, c))) => Some(Set(a, b, c))
      case _ => None
  }

  /** A character that is not a digit does not occur in a digit run. */
  lemma NotInDigits(s: string, c: char)
    requires AllDigits(s) && !IsDigit(c)
    ensures c !in s
  {
  }

  /** A minor number with a "-p" suffix: both digit runs are read back. */
  lemma TailWithPatch(b: string, t: string)
    requires b != [] && AllDigits(b) && t != [] && AllDigits(t)
    ensures ParseTail(b + ("-p" + t)) == Some((DigitsValue(b), DigitsValue(t)))
  {
    var suffix := "-p" + t;
    var rest := b + suffix;
    var patchText := "p" + t;
    assert '-' in rest && IndexOf(rest, '-') == |b| by {
      NotInDigits(b, '-');
      IndexOfAfter(b, suffix, '-');
    }
    assert rest[..|b|] == b;
    assert rest[|b| + 1..] == patchText by {
      assert rest[|b|..] == suffix;
    }
    assert patchText[0] == 'p' && patchText[1..] == t;
    assert Field(b) == Some(DigitsValue(b)) && Field(t) == Some(DigitsValue(t));
  }

  /** A minor number without a suffix: the patch number reads as 0. */
  lemma TailWithoutPatch(b: string)
    requires b != [] && AllDigits(b)
    ensures ParseTail(b) == Some((DigitsValue(b), 0))
  {
    NotInDigits(b, '-');
    assert DigitsValue("0") == 0;
  }

  /** The minor number and patch suffix are read back from their text. */
  lemma TailRoundTrip(minor: nat, patch: nat)
    ensures ParseTail(NatToString(minor) + (if patch != 0 then "-p" + NatToString(patch) else "")) == Some((minor, patch))
  {
    NatToStringRoundTrip(minor);
    if patch != 0 {
      TailWithPatch(NatToString(minor), NatToString(patch));
      NatToStringRoundTrip(patch);
    } else {
      TailWithoutPatch(NatToString(minor));
      assert NatToString(minor) + "" == NatToString(minor);
    }
  }

  /** The major number is the digit run before the first '.'; the rest goes to ParseTail. */
  lemma ParseVersionSplit(a: string, tail: string)
    requires a != [] && AllDigits(a)
    ensures ParseVersion("v" + (a + ("." + tail))) ==
      if ParseTail(tail).Some? then
        Some(Set(DigitsValue(a), ParseTail(tail).value.0, ParseTail(tail).value.1))
      else None
  {
    var s := "v" + (a + ("." + tail));
    var body := s[1..];
    assert body == a + ("." + tail);
    NotInDigits(a, '.');
    IndexOfAfter(a, "." + tail, '.');
    assert body[|a|] == '.';
    assert body[..|a|] == a;
    assert body[|a| + 1..] == tail;
  }

  /** Every version with non-negative fields is read back from its text. */
  lemma ToStrRoundTrip(v: Version)
    requires v.Set? ==> v.major >= 0 && v.minor >= 0 && v.patch >= 0
    ensures ParseVersion(ToStr(v)) == Some(v)
  {
    if v.Set? {
      var a := NatToString(v.major);
      var tail := NatToString(v.minor) + (if v.patch != 0 then "-p" + NatToString(v.patch) else "");
      assert ToStr(v) == "v" + (a + ("." + tail));
      ParseVersionSplit(a, tail);
      NatToStringRoundTrip(v.major);
      TailRoundTrip(v.minor, v.patch);
    }
  }

  /** Distinct versions with non-negative fields have distinct texts. */
  lemma ToStrInjective(v: Version, w: Version)
    requires v.Set? ==> v.major >= 0 && v.minor >= 0 && v.patch >= 0
    requires w.Set? ==> w.major >= 0 && w.minor >= 0 && w.patch >= 0
    requires ToStr(v) == ToStr(w)
    ensures v == w
  {
    ToStrRoundTrip(v);
    ToStrRoundTrip(w);
  }

  /** For non-negative fields the text has a "-p" suffix exactly when the patch number is not 0. */
  lemma PatchSuffixExactlyWhenNonZero(v: Version)
    requires v.Set? && v.major >= 0 && v.minor >= 0 && v.patch >= 0
    ensures '-' in ToStr(v) <==> v.patch != 0
  {
    var a, b := NatToString(v.major), NatToString(v.minor);
    NotInDigits(a, '-');
    NotInDigits(b, '-');
    var head := "v" + a + "." + b;
    assert '-' !in head;
    if v.patch != 0 {
      assert ToStr(v)[|head|] == '-';
    } else {
      assert ToStr(v) == head;
    }
  }

  /** The version this release reports. */
  lemma CurrentVersionText()
    ensures ToStr(Set(VERSION_MAJOR, VERSION_MINOR, VERSION_PATCH)) == "v1.21"
  {
    assert NatToString(21) == "21";
  }
}

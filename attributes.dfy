/** The attribute whitelist (lib/canvas/attributes.rb) and the two ways the
    setters clean an attribute name before looking it up. */
module Attributes {

  /** `POSSIBLE_ATTRIBUTES`, in the order of the source. */
  const PossibleAttributes: seq<string> := [
    "clip-rect", "cx", "cy", "fill", "fill-opacity", "font", "font-family",
    "font-size", "font-weight", "height", "opacity", "path", "r", "rotation",
    "rx", "ry", "scale", "src", "stroke", "stroke-dasharray", "stroke-linecap",
    "stroke-linejoin", "stroke-miterlimit", "stroke-opacity", "stroke-width",
    "translation", "width", "x", "y", "gradient"
  ]

  /** `POSSIBLE_ATTRIBUTES.include? name`: exact, case-sensitive membership. */
  predicate IsListed(name: string)
  {
    name in PossibleAttributes
  }

  /** A character the sanitiser keeps: one of `[a-zA-Z0-9_-]`. */
  predicate IsNameChar(c: char)
  {
    ('a' <= c <= 'z') || ('A' <= c <= 'Z') || ('0' <= c <= '9') || c == '_' || c == '-'
  }

  /** `gsub(/[^a-zA-Z0-9_\-]/, '')`: drops every character outside the
      name alphabet and keeps the others in order. */
  function StripUnsafe(s: string): (r: string)
    ensures |r| <= |s|
    ensures forall k :: 0 <= k < |r| ==> IsNameChar(r[k])
    ensures forall c :: c in r ==> c in s
  {
    if s == [] then ""
    else if IsNameChar(s[0]) then [s[0]] + StripUnsafe(s[1..])
    else StripUnsafe(s[1..])
  }

  /** `gsub('_', '-')`. */
  function DashUnderscores(s: string): (r: string)
    ensures |r| == |s|
    ensures forall k :: 0 <= k < |s| ==> r[k] == if s[k] == '_' then '-' else s[k]
  {
    if s == [] then "" else [if s[0] == '_' then '-' else s[0]] + DashUnderscores(s[1..])
  }

  /** The name cleaning of `RaphaelElement#[]=` (raphael_element.rb:113):
      never longer, only name characters, and no `_` left. */
  function SanitizeDashed(s: string): (r: string)
    ensures |r| <= |s|
    ensures forall k :: 0 <= k < |r| ==> IsNameChar(r[k]) && r[k] != '_'
  {
    DashUnderscores(StripUnsafe(s))
  }

  /** The name cleaning of `BasicShape#[]=` (elements.rb:112) and of
      `AnimationProxy#attr` (animation.rb:67): underscores are kept; never
      longer, and only name characters. */
  function SanitizeKeepUnderscore(s: string): (r: string)
    ensures |r| <= |s|
    ensures forall k :: 0 <= k < |r| ==> IsNameChar(r[k])
  {
    StripUnsafe(s)
  }

  // ---- what the sanitisers do ----

  /** Stripping changes nothing exactly when every character is already in
      the name alphabet. */
  lemma {:induction false} StripUnsafeFixpoint(s: string)
    ensures StripUnsafe(s) == s <==> forall k :: 0 <= k < |s| ==> IsNameChar(s[k])
  {
    if s != [] {
      StripUnsafeFixpoint(s[1..]);
      if !IsNameChar(s[0]) {
        assert |StripUnsafe(s)| < |s| by { assert StripUnsafe(s) == StripUnsafe(s[1..]); }
      }
    }
  }

  /** Sanitising twice is sanitising once, for both sanitisers. */
  lemma SanitizeIdempotent(s: string)
    ensures SanitizeKeepUnderscore(SanitizeKeepUnderscore(s)) == SanitizeKeepUnderscore(s)
    ensures SanitizeDashed(SanitizeDashed(s)) == SanitizeDashed(s)
  {
    var t := StripUnsafe(s);
    StripUnsafeFixpoint(t);
    var d := DashUnderscores(t);
    StripUnsafeFixpoint(d);
    assert DashUnderscores(d) == d;
  }

  /** The two sanitisers agree exactly on names that keep no underscore
      after stripping. */
  lemma SanitizersAgree(s: string)
    ensures SanitizeDashed(s) == SanitizeKeepUnderscore(s) <==> '_' !in StripUnsafe(s)
  {
    var t := StripUnsafe(s);
    if '_' in t {
      var k :| 0 <= k < |t| && t[k] == '_';
      assert DashUnderscores(t)[k] == '-';
    } else {
      assert DashUnderscores(t) == t;
    }
  }

  // ---- the whitelist ----

  /** Lowercase letters and dashes only. */
  predicate LowerDashed(s: string)
  {
    forall k :: 0 <= k < |s| ==> ('a' <= s[k] <= 'z') || s[k] == '-'
  }

  /** A step of `WhitelistAlphabet`: the first ten listed names are lowercase
      letters and dashes only. The list is checked in three slices so that
      each proof stays small. */
  lemma WhitelistAlphabetHead()
    ensures forall i :: 0 <= i < 10 ==> LowerDashed(PossibleAttributes[i])
  {
  }

  /** A step of `WhitelistAlphabet`: so are the next ten. */
  lemma WhitelistAlphabetMiddle()
    ensures forall i :: 10 <= i < 20 ==> LowerDashed(PossibleAttributes[i])
  {
  }

  /** A step of `WhitelistAlphabet`: so are the last ten. */
  lemma WhitelistAlphabetTail()
    ensures forall i :: 20 <= i < 30 ==> LowerDashed(PossibleAttributes[i])
  {
  }

  /** Every listed name is lowercase letters and dashes only. */
  lemma WhitelistAlphabet()
    ensures forall i :: 0 <= i < |PossibleAttributes| ==> LowerDashed(PossibleAttributes[i])
  {
    WhitelistAlphabetHead();
    WhitelistAlphabetMiddle();
    WhitelistAlphabetTail();
  }

  /** The list holds exactly 30 names, no two equal. */
  lemma WhitelistSize()
    ensures |PossibleAttributes| == 30
    ensures forall i, j :: 0 <= i < j < |PossibleAttributes| ==> PossibleAttributes[i] != PossibleAttributes[j]
  {
  }

  /** A lowercase, dashed name holds no `_` and both sanitisers keep it. */
  lemma LowerDashedIsClean(s: string)
    requires LowerDashed(s)
    ensures '_' !in s
    ensures StripUnsafe(s) == s && DashUnderscores(s) == s
  {
    assert forall k :: 0 <= k < |s| ==> IsNameChar(s[k]) && s[k] != '_';
    StripUnsafeFixpoint(s);
    assert DashUnderscores(s) == s;
  }

  /** A name of name characters other than `_` passes the dashed sanitiser
      unchanged. */
  lemma CleanNameKept(s: string)
    requires forall k :: 0 <= k < |s| ==> IsNameChar(s[k]) && s[k] != '_'
    ensures SanitizeDashed(s) == s
  {
    StripUnsafeFixpoint(s);
    assert DashUnderscores(s) == s;
  }

  /** Both sanitisers leave every listed name unchanged. */
  lemma ListedNamesAreClean(name: string)
    requires IsListed(name)
    ensures SanitizeKeepUnderscore(name) == name
    ensures SanitizeDashed(name) == name
  {
    WhitelistAlphabet();
    var i :| 0 <= i < |PossibleAttributes| && PossibleAttributes[i] == name;
    LowerDashedIsClean(PossibleAttributes[i]);
  }

  /** No listed name holds `_`: a name that keeps an underscore is never
      accepted by the setters that do not map `_` to `-`. */
  lemma UnderscoreNeverListed(name: string)
    requires '_' in name
    ensures !IsListed(name)
  {
    forall i | 0 <= i < |PossibleAttributes| ensures PossibleAttributes[i] != name {
      WhitelistAlphabet();
      LowerDashedIsClean(PossibleAttributes[i]);
    }
  }

  /** The keys written by the animation `translate`, `scale` and `rotate`
      are listed. */
  lemma AnimationKeysListed()
    ensures IsListed("translation") && IsListed("scale") && IsListed("rotation")
  {
  }

  /** Stripping works character by character. */
  lemma {:induction false} StripUnsafeAppend(a: string, b: string)
    ensures StripUnsafe(a + b) == StripUnsafe(a) + StripUnsafe(b)
  {
    if a != [] {
      assert (a + b)[1..] == a[1..] + b;
      StripUnsafeAppend(a[1..], b);
    } else {
      assert a + b == b;
    }
  }

  /** Dashing works character by character. */
  lemma {:induction false} DashUnderscoresAppend(a: string, b: string)
    ensures DashUnderscores(a + b) == DashUnderscores(a) + DashUnderscores(b)
  {
    if a != [] {
      assert (a + b)[1..] == a[1..] + b;
      DashUnderscoresAppend(a[1..], b);
    } else {
      assert a + b == b;
    }
  }

  /** Two lowercase, dashed words joined by `_` come out of the dashed
      sanitiser joined by `-`. */
  lemma DashedJoin(a: string, b: string)
    requires LowerDashed(a) && LowerDashed(b)
    ensures SanitizeDashed(a + "_" + b) == a + "-" + b
  {
    LowerDashedIsClean(a);
    LowerDashedIsClean(b);
    StripUnsafeAppend(a + "_", b);
    StripUnsafeAppend(a, "_");
    assert StripUnsafe("_") == "_";
    DashUnderscoresAppend(a + "_", b);
    DashUnderscoresAppend(a, "_");
    assert DashUnderscores("_") == "-";
  }

  /** `fill_opacity` becomes `fill-opacity` under the dashed sanitiser (a
      listed name, see `FillOpacityListed`). */
  lemma FillOpacityDashed()
    ensures SanitizeDashed("fill_opacity") == "fill-opacity"
  {
    DashedJoin("fill", "opacity");
    assert "fill" + "_" + "opacity" == "fill_opacity";
    assert "fill" + "-" + "opacity" == "fill-opacity";
  }

  /** `fill-opacity` is listed. */
  lemma FillOpacityListed()
    ensures IsListed("fill-opacity")
  {
  }

  /** Every listed name starts in lowercase, so a capitalised name is
      never listed. */
  lemma CapitalNeverListed(name: string)
    requires |name| > 0 && 'A' <= name[0] <= 'Z'
    ensures !IsListed(name)
  {
    ListedIsLowerDashed(name);
  }

  lemma ListedIsLowerDashed(name: string)
    ensures IsListed(name) ==> LowerDashed(name)
  {
    if IsListed(name) {
      WhitelistAlphabet();
      var i :| 0 <= i < |PossibleAttributes| && PossibleAttributes[i] == name;
    }
  }

  /** `fill_opacity` is kept as it is, and so rejected, by the sanitiser
      that keeps underscores. */
  lemma FillOpacityKept()
    ensures SanitizeKeepUnderscore("fill_opacity") == "fill_opacity"
    ensures !IsListed(SanitizeKeepUnderscore("fill_opacity"))
  {
    var s := "fill_opacity";
    assert forall k :: 0 <= k < |s| ==> IsNameChar(s[k]);
    StripUnsafeFixpoint(s);
    assert s[4] == '_';
    UnderscoreNeverListed(s);
  }

  /** Membership is case-sensitive: `Fill` sanitises to itself and is
      rejected. */
  lemma CaseSensitiveExample()
    ensures SanitizeDashed("Fill") == "Fill" && !IsListed(SanitizeDashed("Fill"))
  {
    var s := "Fill";
    assert forall k :: 0 <= k < |s| ==> IsNameChar(s[k]) && s[k] != '_';
    CleanNameKept(s);
    CapitalNeverListed(s);
  }
}

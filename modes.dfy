/**
 * DecimationMode: the two ways of reducing a timeline, and the
 * case-insensitive lookup of a mode by name.
 */
module Modes {
  import opened Base
  import opened Strings

  datatype DecimationMode = PEAK_PICK | AVERAGE

  /** `DecimationMode.values()`, in declaration order. */
  const VALUES: seq<DecimationMode> := [PEAK_PICK, AVERAGE]

  /** `name()`: the constant's identifier. */
  function Name(m: DecimationMode): string
  {
    match m
    case PEAK_PICK => "PEAK_PICK"
    case AVERAGE => "AVERAGE"
  }

  lemma ValuesAreAllModes(m: DecimationMode)
    ensures m in VALUES && |VALUES| == 2
  {
  }

  /** The loop of `fromString`: the first of `modes` whose name equals `s` ignoring case. */
  function FirstMatch(modes: seq<DecimationMode>, s: string): (r: Option<DecimationMode>)
    ensures r.None? <==> forall m :: m in modes ==> !EqualsIgnoreCase(Name(m), s)
    ensures r.Some? ==> r.value in modes && EqualsIgnoreCase(Name(r.value), s)
    ensures r.Some? && modes != [] && EqualsIgnoreCase(Name(modes[0]), s) ==> r.value == modes[0]
  {
    if modes == [] then None
    else if EqualsIgnoreCase(Name(modes[0]), s) then Some(modes[0])
    else FirstMatch(modes[1..], s)
  }

  /** `fromString(modeString)`; a null `modeString` matches nothing. */
  function FromString(modeString: Option<string>): (r: Option<DecimationMode>)
  {
    match modeString
    case None => None
    case Some(s) => FirstMatch(VALUES, s)
  }

  /** The two names have different lengths, so no string matches both. */
  lemma FromStringIff(s: string, m: DecimationMode)
    ensures FromString(Some(s)) == Some(m) <==> EqualsIgnoreCase(Name(m), s)
  {
    var r := FromString(Some(s));
    if EqualsIgnoreCase(Name(m), s) {
      assert m == VALUES[0] || m == VALUES[1];
    }
  }

  /** A string that matches no name, and null, give null. */
  lemma FromStringNone(modeString: Option<string>)
    ensures FromString(modeString).None? <==>
      (modeString.None? || forall m :: !EqualsIgnoreCase(Name(m), modeString.value))
  {
    if modeString.Some? {
      var s := modeString.value;
      if FromString(modeString).None? {
        forall m ensures !EqualsIgnoreCase(Name(m), s) {
          assert m == VALUES[0] || m == VALUES[1];
        }
      }
    }
  }

  /** `fromString(m.name())` is `m`, and so is `fromString(m.name().toLowerCase())`. */
  lemma FromStringRoundTrip(m: DecimationMode)
    ensures FromString(Some(Name(m))) == Some(m)
    ensures FromString(Some(ToLower(Name(m)))) == Some(m)
  {
    FromStringIff(Name(m), m);
    FromStringIff(ToLower(Name(m)), m);
    var n := Name(m);
    assert forall i :: 0 <= i < |n| ==> CharsEqualIgnoreCase(n[i], LowerChar(n[i]));
  }
}

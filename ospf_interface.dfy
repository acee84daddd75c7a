/**
 * The `ospf_interface` type: how each OSPF interface parameter given in a
 * manifest is checked and normalised before a provider sees it. A value is
 * given by its text (`value.to_s`); checking and normalising together either
 * raise, with the type's message, or give the value the property stores.
 */
module OspfInterface {
  import opened Common
  import opened Text

  // ---------------------------------------------------------------------
  // The numeric properties.

  /** The properties whose values are numerals. */
  datatype Numeric = Cost | DeadInterval | HelloInterval | Priority | RetransmitInterval | TransmitDelay

  /** The smallest value each property accepts. */
  function Low(p: Numeric): int {
    match p
    case Priority => 0
    case RetransmitInterval => 3
    case _ => 1
  }

  /** The largest value each property accepts. */
  function High(p: Numeric): int {
    match p
    case Priority => 255
    case _ => 65535
  }

  /** The message `validate` raises for a value out of range. */
  function RangeMessage(p: Numeric): string {
    match p
    case Cost => "Cost: 1-65535"
    case DeadInterval => "Interval after which a neighbor is declared dead: 1-65535 seconds"
    case HelloInterval => "Time between HELLO packets: 1-65535 seconds"
    case Priority => "Priority: 0-255"
    case RetransmitInterval => "Time between retransmitting lost link state advertisements: 3-65535 seconds"
    case TransmitDelay => "Link state transmit delay: 1-65535 seconds"
  }

  /**
   * `validate` then `munge` as written: only the range of `value.to_i` is
   * checked, because a `validate` block takes the place of the check against
   * `newvalues(/\A\d+\Z/)`; the stored value is `value.to_i`.
   */
  function AcceptAsWritten(p: Numeric, value: string): (r: Result<int>)
    ensures r.Ok? <==> Low(p) <= ToI(value) <= High(p)
    ensures r.Ok? ==> r.value == ToI(value)
    ensures r.Err? ==> r.message == RangeMessage(p)
  {
    var n := ToI(value);
    if n < Low(p) || n > High(p) then Err(RangeMessage(p)) else Ok(n)
  }

  /** The message for a value the pattern `\A\d+\Z` does not match. */
  function PatternMessage(value: string): string {
    "Invalid value \"" + value + "\". Valid values match /\\A\\d+\\Z/."
  }

  /**
   * `validate` then `munge` as intended: the value must be a numeral and its
   * value must lie in the property's range; the stored value is the
   * numeral's value. This is the all-digits reading of `newvalues(/\A\d+\Z/)`:
   * Ruby's `\Z` would also let a final newline through (`"12\n"`), which
   * this check refuses.
   */
  function Accept(p: Numeric, value: string): (r: Result<int>)
    ensures r.Err? ==> r.message == (if AllDigits(value) then RangeMessage(p) else PatternMessage(value))
  {
    if !AllDigits(value) then Err(PatternMessage(value))
    else
      var n := ToI(value);
      if n < Low(p) || n > High(p) then Err(RangeMessage(p)) else Ok(n)
  }

  /** A value is accepted exactly when it is a numeral in range, and it is stored as that number. */
  lemma AcceptIff(p: Numeric, value: string)
    ensures Accept(p, value).Ok? <==> AllDigits(value) && Low(p) <= DigitsValue(value) <= High(p)
    ensures Accept(p, value).Ok? ==> Accept(p, value).value == DigitsValue(value)
  {
    if AllDigits(value) {
      ToIOfDigits(value);
    }
  }

  /** Signs, blanks and the empty string are refused whatever the number. */
  lemma AcceptRefusesNonNumerals(p: Numeric, value: string)
    requires value == "" || value[0] == '-' || value[0] == '+' || IsSpace(value[0])
    ensures Accept(p, value) == Err(PatternMessage(value))
  {
    if value != "" {
      assert !IsDigit(value[0]);
    }
  }

  /** Every number in range is accepted when written as a numeral, and read back unchanged. */
  lemma AcceptNumeral(p: Numeric, n: nat)
    requires Low(p) <= n <= High(p)
    ensures Accept(p, NatToDigits(n)) == Ok(n)
  {
    AcceptIff(p, NatToDigits(n));
    DigitsValueOfNatToDigits(n);
  }

  /** Normalising is idempotent: the stored number, written out again, is accepted as itself. */
  lemma AcceptStored(p: Numeric, value: string)
    requires Accept(p, value).Ok?
    ensures Accept(p, IntToString(Accept(p, value).value)) == Accept(p, value)
  {
    AcceptIff(p, value);
    var n := Accept(p, value).value;
    assert n >= 0;
    AcceptNumeral(p, n);
  }

  /** Where the two agree: on numerals the intended check is the check as written. */
  lemma AcceptAgreesOnNumerals(p: Numeric, value: string)
    requires AllDigits(value)
    ensures Accept(p, value) == AcceptAsWritten(p, value)
  {
  }

  /** As written, `12abc` is accepted as cost 12, which the pattern refuses. */
  lemma AcceptAsWrittenTrailingGarbage()
    ensures AcceptAsWritten(Cost, "12abc") == Ok(12)
    ensures Accept(Cost, "12abc").Err?
  {
    var value := "12abc";
    assert value == "12" + "abc";
    assert Digits("12") && !IsDigit(value[2]);
    LeadingDigitsPrefix("12", "abc");
    assert SkipSpaces(value) == value by {
      assert !IsSpace(value[0]);
    }
    assert "12"[..1] == "1";
    assert DigitsValue("12") == 12;
  }

  /** As written, `0d12` is accepted as cost 12, since `to_i` skips the prefix; the pattern refuses it. */
  lemma AcceptAsWrittenRadixPrefix()
    ensures AcceptAsWritten(Cost, "0d12") == Ok(12)
    ensures Accept(Cost, "0d12").Err?
  {
    ToIRadixPrefix();
    assert !AllDigits("0d12") by {
      assert !IsDigit("0d12"[1]);
    }
  }

  /** As written, an empty priority is accepted as 0, which the pattern refuses. */
  lemma AcceptAsWrittenEmpty()
    ensures AcceptAsWritten(Priority, "") == Ok(0)
    ensures Accept(Priority, "").Err?
  {
  }

  // ---------------------------------------------------------------------
  // `mtu_ignore`.

  /** `newvalues(:true, :false)`: the texts of the two values. */
  predicate IsToggle(value: string) {
    value == "true" || value == "false"
  }

  /** `defaultto(:false)`. */
  const MtuIgnoreDefault: string := "false"

  /**
   * The value collection's check, then `value.to_s.to_sym`: `true` or
   * `false`, stored as the symbol of that name (given here by its name).
   */
  function AcceptMtuIgnore(value: string): (r: Result<string>)
    ensures r.Ok? <==> IsToggle(value)
    ensures r.Ok? ==> r.value == value
  {
    if IsToggle(value) then Ok(value) else Err("Invalid value \"" + value + "\". Valid values are true, false.")
  }

  /** The default is accepted, and a stored value is accepted as itself. */
  lemma MtuIgnoreStable(value: string)
    ensures AcceptMtuIgnore(MtuIgnoreDefault) == Ok("false")
    ensures AcceptMtuIgnore(value).Ok? ==> AcceptMtuIgnore(AcceptMtuIgnore(value).value) == AcceptMtuIgnore(value)
  {
  }

  // ---------------------------------------------------------------------
  // `network_type`.

  /** The four values in their canonical, underscore form. */
  predicate IsCanonicalType(value: string) {
    value == "broadcast" || value == "non_broadcast" || value == "point_to_multipoint" || value == "point_to_point"
  }

  /** The seven spellings `newvalues` admits: the four symbols and three hyphenated strings. */
  predicate IsNetworkType(value: string) {
    IsCanonicalType(value) || value == "non-broadcast" || value == "point-to-multipoint" || value == "point-to-point"
  }

  /** `gsub(/-/, '_')`. */
  function Underscore(s: string): (r: string)
    ensures |r| == |s|
    ensures forall i :: 0 <= i < |s| ==> r[i] == (if s[i] == '-' then '_' else s[i])
  {
    if s == [] then [] else [if s[0] == '-' then '_' else s[0]] + Underscore(s[1..])
  }

  /** Replacing hyphens a second time changes nothing. */
  lemma UnderscoreIdempotent(s: string)
    ensures Underscore(Underscore(s)) == Underscore(s)
  {
    var once := Underscore(s);
    var twice := Underscore(once);
    assert forall i :: 0 <= i < |s| ==> twice[i] == once[i];
  }

  /** The value collection's check, then `value.to_s.gsub(/-/, '_').to_sym`. */
  function AcceptNetworkType(value: string): (r: Result<string>)
    ensures r.Ok? <==> IsNetworkType(value)
  {
    if IsNetworkType(value) then Ok(Underscore(value))
    else Err("Invalid value \"" + value + "\". Valid values are broadcast, non_broadcast, point_to_multipoint, point_to_point, non-broadcast, point-to-multipoint, point-to-point.")
  }

  /** A string and its spelling with every hyphen made an underscore. */
  lemma UnderscoreOf(s: string, t: string)
    requires |s| == |t| && forall i :: 0 <= i < |s| ==> t[i] == (if s[i] == '-' then '_' else s[i])
    ensures Underscore(s) == t
  {
  }

  /** A hyphenated spelling and its underscore spelling are the same value. */
  lemma HyphenSpellings()
    ensures Underscore("non-broadcast") == "non_broadcast"
    ensures Underscore("point-to-multipoint") == "point_to_multipoint"
    ensures Underscore("point-to-point") == "point_to_point"
  {
    NonBroadcastSpelling();
    PointToMultipointSpelling();
    PointToPointSpelling();
  }

  lemma NonBroadcastSpelling()
    ensures Underscore("non-broadcast") == "non_broadcast"
  {
    UnderscoreOf("non-broadcast", "non_broadcast");
  }

  lemma PointToMultipointSpelling()
    ensures Underscore("point-to-multipoint") == "point_to_multipoint"
  {
    UnderscoreOf("point-to-multipoint", "point_to_multipoint");
  }

  lemma PointToPointSpelling()
    ensures Underscore("point-to-point") == "point_to_point"
  {
    UnderscoreOf("point-to-point", "point_to_point");
  }

  /** A canonical spelling has no hyphen and is left as it is. */
  lemma CanonicalUnchanged(value: string)
    requires IsCanonicalType(value)
    ensures Underscore(value) == value
  {
    if value == "broadcast" {
      UnderscoreOf(value, value);
    } else if value == "non_broadcast" {
      UnderscoreOf(value, value);
    } else if value == "point_to_multipoint" {
      UnderscoreOf(value, value);
    } else {
      UnderscoreOf(value, value);
    }
  }

  /**
   * Every accepted spelling is stored as one of the four canonical values,
   * and a stored value is accepted again as itself.
   */
  lemma NetworkTypeCanonical(value: string)
    requires AcceptNetworkType(value).Ok?
    ensures IsCanonicalType(AcceptNetworkType(value).value)
    ensures AcceptNetworkType(AcceptNetworkType(value).value) == AcceptNetworkType(value)
  {
    HyphenSpellings();
    if IsCanonicalType(value) {
      CanonicalUnchanged(value);
    }
    CanonicalUnchanged(AcceptNetworkType(value).value);
  }
}

/**
 * Input checks for a quote request: postal-code format, positive weight,
 * and positive dimensions under a volume cap. Each check reports the first
 * problem it finds, or none.
 */
module Validator {
  import opened Outcomes
  import opened Numerals

  const MaxVolumeCm3: real := 15000.0
  const MinWeight: real := 0.0
  const ZipcodeLength: nat := 8
  const MinZipcodeLength: nat := 4

  /** The validation failures, each carrying what its message mentions. */
  datatype ValidationError =
    | Required(field: string)
    | BadFormat(field: string)
    | WeightNotPositive
    | LengthNotPositive
    | WidthNotPositive
    | HeightNotPositive
    | VolumeTooLarge(volume: real)

  /**
   * The text of an error. The two-decimal rendering of a volume is supplied
   * by the caller as `formatVolume`.
   */
  function Message(e: ValidationError, formatVolume: real -> string): (r: string)
    ensures e.Required? || e.BadFormat? ==> e.field <= r && |r| > |e.field|
    ensures e.VolumeTooLarge? ==> "package volume (" + formatVolume(e.volume) <= r
  {
    match e
    case Required(field) => field + " is required"
    case BadFormat(field) => field + " must be a valid zipcode format (4-8 digits)"
    case WeightNotPositive => "weight must be greater than 0"
    case LengthNotPositive => "dimensions.length must be positive"
    case WidthNotPositive => "dimensions.width must be positive"
    case HeightNotPositive => "dimensions.height must be positive"
    case VolumeTooLarge(volume) =>
      "package volume (" + formatVolume(volume) + " cm³) exceeds maximum allowed volume ("
      + formatVolume(MaxVolumeCm3) + " cm³)"
  }

  /** The two postal-code messages start with the field name and share everything after it. */
  lemma ZipcodeMessagesDifferOnlyInField(field1: string, field2: string, formatVolume: real -> string)
    ensures field1 <= Message(Required(field1), formatVolume)
    ensures field1 <= Message(BadFormat(field1), formatVolume)
    ensures Message(Required(field1), formatVolume)[|field1|..]
         == Message(Required(field2), formatVolume)[|field2|..]
    ensures Message(BadFormat(field1), formatVolume)[|field1|..]
         == Message(BadFormat(field2), formatVolume)[|field2|..]
  {
  }

  /** `strings.ReplaceAll(s, [c], "")`: drops every occurrence of `c`, keeps the rest in order. */
  function RemoveAll(s: string, c: char): (r: string)
    ensures forall x :: x in r ==> x in s && x != c
  {
    if s == [] then []
    else (if s[0] == c then [] else [s[0]]) + RemoveAll(s[1..], c)
  }

  lemma {:induction false} RemoveAllAbsent(s: string, c: char)
    requires c !in s
    ensures RemoveAll(s, c) == s
  {
    if s != [] {
      RemoveAllAbsent(s[1..], c);
    }
  }

  predicate IsSeparator(c: char) {
    c == '-' || c == ' '
  }

  /** Postal-code normalization: hyphens are removed first, then spaces. */
  function Normalize(zipcode: string): (r: string)
    ensures forall i :: 0 <= i < |r| ==> !IsSeparator(r[i])
  {
    var hyphensRemoved := RemoveAll(zipcode, '-');
    var r := RemoveAll(hyphensRemoved, ' ');
    assert forall i :: 0 <= i < |r| ==> r[i] in r;
    r
  }

  /** Reference definition: one left-to-right pass keeping the non-separators. */
  function KeepNonSeparators(s: string): string {
    if s == [] then []
    else (if IsSeparator(s[0]) then [] else [s[0]]) + KeepNonSeparators(s[1..])
  }

  lemma {:induction false} RemoveAllConcat(a: string, b: string, c: char)
    ensures RemoveAll(a + b, c) == RemoveAll(a, c) + RemoveAll(b, c)
  {
    if a != [] {
      var head := if a[0] == c then [] else [a[0]];
      assert (a + b)[0] == a[0];
      assert (a + b)[1..] == a[1..] + b;
      RemoveAllConcat(a[1..], b, c);
      calc {
        RemoveAll(a + b, c);
        head + RemoveAll(a[1..] + b, c);
        head + (RemoveAll(a[1..], c) + RemoveAll(b, c));
        (head + RemoveAll(a[1..], c)) + RemoveAll(b, c);
        RemoveAll(a, c) + RemoveAll(b, c);
      }
    } else {
      assert a + b == b;
    }
  }

  /** Normalization removes exactly the separators and keeps the order of everything else. */
  lemma {:induction false} NormalizeKeepsNonSeparators(s: string)
    ensures Normalize(s) == KeepNonSeparators(s)
  {
    if s != [] {
      NormalizeKeepsNonSeparators(s[1..]);
      var head := if s[0] == '-' then [] else [s[0]];
      assert RemoveAll(s, '-') == head + RemoveAll(s[1..], '-');
      RemoveAllConcat(head, RemoveAll(s[1..], '-'), ' ');
    }
  }

  /** Normalization works piecewise: a separator between two parts simply disappears. */
  lemma NormalizeConcat(a: string, b: string)
    ensures Normalize(a + b) == Normalize(a) + Normalize(b)
  {
    RemoveAllConcat(a, b, '-');
    RemoveAllConcat(RemoveAll(a, '-'), RemoveAll(b, '-'), ' ');
  }

  /** A code without hyphens or spaces is already normalized. */
  lemma NormalizeSeparatorFree(s: string)
    requires '-' !in s && ' ' !in s
    ensures Normalize(s) == s
  {
    RemoveAllAbsent(s, '-');
    RemoveAllAbsent(s, ' ');
  }

  lemma NormalizeHyphen()
    ensures Normalize("-") == []
  {
    assert RemoveAll("-", '-') == [];
  }

  /** A hyphen between two separator-free parts is dropped: "12345-678" becomes "12345678". */
  lemma NormalizeAroundHyphen(a: string, b: string)
    requires '-' !in a && ' ' !in a && '-' !in b && ' ' !in b
    ensures Normalize(a + "-" + b) == a + b
  {
    NormalizeHyphen();
    NormalizeSeparatorFree(a);
    NormalizeSeparatorFree(b);
    calc {
      Normalize(a + "-" + b);
      { NormalizeConcat(a + "-", b); }
      Normalize(a + "-") + Normalize(b);
      { NormalizeConcat(a, "-"); }
      Normalize(a) + Normalize("-") + Normalize(b);
      a + b;
    }
  }

  /** Normalizing an already normalized postal code changes nothing. */
  lemma NormalizeIdempotent(s: string)
    ensures Normalize(Normalize(s)) == Normalize(s)
  {
    var n := Normalize(s);
    assert '-' !in n;
    RemoveAllAbsent(n, '-');
    assert ' ' !in n;
    RemoveAllAbsent(n, ' ');
  }

  /**
   * The manual early-exit scan over the normalized code: stops at the first
   * non-digit, and so accepts exactly the all-digit strings.
   */
  predicate ScanDigits(s: string): (r: bool)
    ensures r <==> forall i :: 0 <= i < |s| ==> IsAsciiDigit(s[i])
  {
    if s == [] then true
    else if !IsAsciiDigit(s[0]) then false
    else
      assert forall i :: 1 <= i < |s| ==> s[i] == s[1..][i - 1];
      ScanDigits(s[1..])
  }

  /** A normalized postal code is 4 to 8 characters, all digits. */
  predicate IsZipcode(normalized: string) {
    MinZipcodeLength <= |normalized| <= ZipcodeLength &&
    forall i :: 0 <= i < |normalized| ==> IsAsciiDigit(normalized[i])
  }

  function ValidateZipcode(zipcode: string, fieldName: string): (r: Outcome<ValidationError>)
    ensures r.Pass? <==> zipcode != "" && IsZipcode(Normalize(zipcode))
    ensures zipcode == "" ==> r == Fail(Required(fieldName))
    ensures zipcode != "" && r.Fail? ==> r == Fail(BadFormat(fieldName))
  {
    if zipcode == "" then Fail(Required(fieldName))
    else
      var normalized := Normalize(zipcode);
      if |normalized| < MinZipcodeLength || |normalized| > ZipcodeLength then Fail(BadFormat(fieldName))
      else if !ScanDigits(normalized) then Fail(BadFormat(fieldName))
        else Pass
  }

  function ValidateWeight(weight: real): (r: Outcome<ValidationError>)
    ensures r.Pass? <==> weight > 0.0
    ensures r.Fail? ==> r.error == WeightNotPositive
  {
    if weight <= MinWeight then Fail(WeightNotPositive) else Pass
  }

  /** Volume in cubic centimetres; no check of the sign of the inputs. */
  function CalculateVolume(length: real, width: real, height: real): (v: real)
    ensures length > 0.0 && width > 0.0 && height > 0.0 ==> v > 0.0
    ensures length == 0.0 || width == 0.0 || height == 0.0 ==> v == 0.0
    ensures length < 0.0 && width > 0.0 && height > 0.0 ==> v < 0.0
    ensures length > 0.0 && width < 0.0 && height > 0.0 ==> v < 0.0
    ensures length > 0.0 && width > 0.0 && height < 0.0 ==> v < 0.0
    ensures v == 0.0 <==> length == 0.0 || width == 0.0 || height == 0.0
    ensures v != 0.0 ==> (v < 0.0 <==> ((length < 0.0) != (width < 0.0)) != (height < 0.0))
  {
    assert length > 0.0 && width > 0.0 ==> length * width > 0.0;
    assert length < 0.0 && width > 0.0 ==> length * width < 0.0;
    length * width * height
  }

  function ValidateDimensions(length: real, width: real, height: real): (r: Outcome<ValidationError>)
    ensures r.Pass? <==>
      length > 0.0 && width > 0.0 && height > 0.0 && CalculateVolume(length, width, height) <= MaxVolumeCm3
    ensures r.Fail? && r.error.VolumeTooLarge? ==>
      r.error.volume == CalculateVolume(length, width, height) && r.error.volume > MaxVolumeCm3
  {
    if length <= 0.0 then Fail(LengthNotPositive)
    else if width <= 0.0 then Fail(WidthNotPositive)
    else if height <= 0.0 then Fail(HeightNotPositive)
    else
      var volume := length * width * height;
      if volume > MaxVolumeCm3 then Fail(VolumeTooLarge(volume))
      else Pass
  }

  /** The dimension checks, in the order they are made. */
  function DimensionChecks(length: real, width: real, height: real): seq<Outcome<ValidationError>> {
    var volume := CalculateVolume(length, width, height);
    [ if length > 0.0 then Pass else Fail(LengthNotPositive),
      if width > 0.0 then Pass else Fail(WidthNotPositive),
      if height > 0.0 then Pass else Fail(HeightNotPositive),
      if volume <= MaxVolumeCm3 then Pass else Fail(VolumeTooLarge(volume)) ]
  }

  /** Only the first failing dimension check is reported. */
  lemma ValidateDimensionsReportsFirstFailure(length: real, width: real, height: real)
    ensures ValidateDimensions(length, width, height) == FirstFailure(DimensionChecks(length, width, height))
  {
    var checks := DimensionChecks(length, width, height);
    assert checks[1..] == [checks[1], checks[2], checks[3]];
    assert checks[1..][1..] == [checks[2], checks[3]];
    assert checks[1..][1..][1..] == [checks[3]];
    assert checks[1..][1..][1..][1..] == [];
  }

  /** Accepted dimensions have a strictly positive volume within the cap. */
  lemma AcceptedVolumeInRange(length: real, width: real, height: real)
    requires ValidateDimensions(length, width, height).Pass?
    ensures 0.0 < CalculateVolume(length, width, height) <= MaxVolumeCm3
  {
    assert length * width > 0.0;
  }

  /** The volume cap is inclusive: a volume of exactly 15000 passes. */
  lemma VolumeCapInclusive(length: real, width: real, height: real)
    requires length > 0.0 && width > 0.0 && height > 0.0
    ensures CalculateVolume(length, width, height) == MaxVolumeCm3 ==> ValidateDimensions(length, width, height).Pass?
    ensures CalculateVolume(length, width, height) > MaxVolumeCm3 ==>
      ValidateDimensions(length, width, height) == Fail(VolumeTooLarge(CalculateVolume(length, width, height)))
  {
  }

  /** The empty-code check comes before normalization. */
  lemma ZipcodeExamples(field: string)
    ensures ValidateZipcode("", field) == Fail(Required(field))
    ensures ValidateZipcode("   ", field) == Fail(BadFormat(field))
  {
    RemoveAllAbsent("   ", '-');
    assert RemoveAll("   ", ' ') == [];
  }

  lemma ShortZipcodeExample(field: string)
    ensures ValidateZipcode("123", field) == Fail(BadFormat(field))
  {
    RemoveAllAbsent("123", '-');
    RemoveAllAbsent("123", ' ');
  }

  lemma DigitsExample()
    ensures IsZipcode("01310100")
  {
    var digits := "01310100";
    forall i | 0 <= i < |digits| ensures IsAsciiDigit(digits[i]) {
      assert i in {0, 1, 2, 3, 4, 5, 6, 7};
    }
  }

  /** "01310-100": a hyphenated eight-digit code is accepted. */
  lemma AcceptedZipcodeExample(field: string)
    ensures ValidateZipcode("01310" + "-" + "100", field) == Pass
  {
    NormalizeAroundHyphen("01310", "100");
    assert "01310" + "100" == "01310100";
    DigitsExample();
  }

  lemma WeightAndDimensionExamples()
    ensures ValidateWeight(0.0) == Fail(WeightNotPositive)
    ensures ValidateDimensions(0.0, 0.0, 0.0) == Fail(LengthNotPositive)
    ensures ValidateDimensions(-1.0, -1.0, -1.0) == Fail(LengthNotPositive)
    ensures ValidateDimensions(25.0, 20.0, 30.0) == Pass
    ensures ValidateDimensions(30.0, 30.0, 20.0) == Fail(VolumeTooLarge(18000.0))
    ensures CalculateVolume(-10.0, -5.0, -2.0) == -100.0
  {
  }
}

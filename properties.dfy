/**
 * The property routes' checks: the validation of a create/update request
 * body, the record the create route builds from a valid body, and the
 * rent-checking readiness review of a stored property.
 */
module PropertyRoutes {
  import opened Common
  import Domain

  // ---------------------------------------------------------------------------
  // Reading the request body

  /** `data.get(key)` is truthy: the key is present with a truthy value. */
  predicate Given(data: seq<(string, Json)>, key: string)
  {
    Get(data, key).Some? && Truthy(Get(data, key).value)
  }

  // ---------------------------------------------------------------------------
  // decimal.Decimal(text)

  /**
   * A value of Python's Decimal type: a finite number `units * 10^exponent`,
   * a signed infinity, or a NaN (quiet or signalling; ordering a NaN raises).
   */
  datatype Decimal = Finite(units: int, exponent: int) | Infinite(negative: bool) | NaN

  predicate DigitsOnly(s: string)
  {
    forall i :: 0 <= i < |s| ==> IsAsciiDigit(s[i])
  }

  /**
   * An unsigned finite numeral: digits with at most one decimal point and
   * at least one digit, then optionally `e` or `E` and a signed exponent.
   */
  function ParseFinite(t: string): (r: Option<Decimal>)
    ensures r.Some? ==> r.value.Finite? && r.value.units >= 0
  {
    var e := FindEither(t, 'e', 'E');
    var mantissa := t[..e];
    var exp := if e == |t| then Some(0) else ParseInt(t[e + 1..]);
    var d := FindEither(mantissa, '.', '.');
    var whole := mantissa[..d];
    var fraction := if d == |mantissa| then "" else mantissa[d + 1..];
    var digits := whole + fraction;
    if exp.Some? && DigitsOnly(digits) && digits != [] then
      Some(Finite(DigitsValue(digits), exp.value - |fraction|))
    else None
  }

  /** An unsigned numeral or one of the special values, in any letter case. */
  function ParseUnsigned(t: string): (r: Option<Decimal>)
  {
    var l := Lower(t);
    if l == "inf" || l == "infinity" then Some(Infinite(false))
    else if StartsWith(l, "nan") && DigitsOnly(l[3..]) then Some(NaN)
    else if StartsWith(l, "snan") && DigitsOnly(l[4..]) then Some(NaN)
    else ParseFinite(t)
  }

  function Negate(d: Decimal): Decimal
  {
    match d
    case Finite(u, e) => Finite(-u, e)
    case Infinite(n) => Infinite(!n)
    case NaN => NaN
  }

  /** `Decimal(s)`: None where the constructor raises InvalidOperation. */
  function ParseDecimal(s: string): (r: Option<Decimal>)
  {
    var t := Strip(s);
    if |t| >= 1 && (t[0] == '+' || t[0] == '-') then
      match ParseUnsigned(t[1..])
      case Some(d) => Some(if t[0] == '-' then Negate(d) else d)
      case None => None
    else ParseUnsigned(t)
  }

  /** `d > 0`; None where the comparison raises (a NaN). */
  function IsPositive(d: Decimal): (r: Option<bool>)
    ensures r.None? <==> d.NaN?
  {
    match d
    case Finite(u, _) => Some(u > 0)
    case Infinite(n) => Some(!n)
    case NaN => None
  }

  /** A string of digits has no whitespace to strip. */
  lemma StripDigits(s: string)
    requires AllDigits(s)
    ensures Strip(s) == s
  {
    assert !IsSpace(s[0]) by { assert IsAsciiDigit(s[0]); }
    assert LStrip(s) == s;
    assert !IsSpace(s[|s| - 1]) by { assert IsAsciiDigit(s[|s| - 1]); }
    assert RStrip(s) == s;
  }

  /** A string of digits is no special value and no exponent form: its digits are its units. */
  lemma ParseUnsignedDigits(s: string)
    requires AllDigits(s)
    ensures ParseUnsigned(s) == Some(Finite(DigitsValue(s), 0))
  {
    var l := Lower(s);
    assert IsAsciiDigit(l[0]);
    assert l != "inf" && l != "infinity";
    assert !StartsWith(l, "nan") && !StartsWith(l, "snan");
    assert ParseUnsigned(s) == ParseFinite(s);
    ParseFiniteDigits(s);
  }

  lemma ParseFiniteDigits(s: string)
    requires AllDigits(s)
    ensures ParseFinite(s) == Some(Finite(DigitsValue(s), 0))
  {
    var e := FindEither(s, 'e', 'E');
    assert e == |s|;
    var mantissa := s[..e];
    assert mantissa == s;
    var d := FindEither(mantissa, '.', '.');
    assert d == |s|;
    var digits := mantissa[..d] + "";
    assert digits == s;
    assert DigitsOnly(digits);
  }

  /** A numeral written with digits only reads back as that whole number. */
  lemma ParseDecimalNatString(n: nat)
    ensures ParseDecimal(NatToString(n)) == Some(Finite(n, 0))
  {
    ParseNatToString(n);
    ParseDecimalDigits(NatToString(n));
  }

  lemma ParseDecimalDigits(s: string)
    requires AllDigits(s)
    ensures ParseDecimal(s) == Some(Finite(DigitsValue(s), 0))
  {
    StripDigits(s);
    ParseUnsignedDigits(s);
    assert IsAsciiDigit(s[0]);
  }

  /** `Decimal(str(v))` for a decoded JSON value; only numbers and strings can convert. */
  function RentDecimal(v: Json): (r: Option<Decimal>)
    ensures v.JNum? ==> r == Some(Finite(v.units, -(v.scale as int)))
    ensures !v.JNum? && !v.JStr? ==> r.None?
  {
    match v
    case JNum(u, s) => Some(Finite(u, -(s as int)))
    case JStr(s) => ParseDecimal(s)
    case _ => None
  }

  // ---------------------------------------------------------------------------
  // int(value)

  /** Integer division truncating toward zero, as `int()` of a float does. */
  function TruncDiv(u: int, d: nat): (r: int)
    requires d > 0
    ensures Abs(r) == Abs(u) / d
    ensures r > 0 ==> u > 0
    ensures r < 0 ==> u < 0
  {
    var q := Abs(u) / d;
    if u >= 0 then q else -q
  }

  /** The truncated quotient is the whole number of times `d` fits into |u|. */
  lemma TruncDivBounds(u: int, d: nat)
    requires d > 0
    ensures Abs(TruncDiv(u, d)) * d <= Abs(u) < (Abs(TruncDiv(u, d)) + 1) * d
  {
    DivBounds(Abs(u), d);
  }

  lemma DivBounds(a: nat, d: nat)
    requires d > 0
    ensures (a / d) * d <= a < (a / d + 1) * d
  {
    var q := a / d;
    assert a == q * d + a % d;
    assert (q + 1) * d == q * d + d;
  }

  /**
   * `int(v)` for a decoded JSON value: an integer as it is, a fraction
   * truncated toward zero, a string read as a signed numeral once surrounding
   * whitespace is stripped, a boolean as 0 or 1; None where int() raises.
   */
  function DueDayInt(v: Json): (r: Option<int>)
    ensures v.JNum? && v.scale == 0 ==> r == Some(v.units)
    ensures v.JStr? ==> r == ParseInt(Strip(v.s))
    ensures v.JNull? || v.JList? || v.JObject? ==> r.None?
  {
    match v
    case JNum(u, s) => Some(if s == 0 then u else TruncDiv(u, Pow10(s)))
    case JStr(s) => ParseInt(Strip(s))
    case JBool(b) => Some(if b then 1 else 0)
    case _ => None
  }

  lemma DueDayIntNatString(n: nat)
    ensures DueDayInt(JStr(NatToString(n))) == Some(n)
  {
    var s := NatToString(n);
    StripDigits(s);
    ParseNatToString(n);
    ParseIntDigits(s);
  }

  lemma ParseIntDigits(s: string)
    requires AllDigits(s)
    ensures ParseInt(s) == Some(DigitsValue(s))
  {
    assert IsAsciiDigit(s[0]);
    assert !(s[0] == '-' || s[0] == '+');
    assert ParseNat(s) == Some(DigitsValue(s));
  }

  // ---------------------------------------------------------------------------
  // validate_property_data

  /** The complaints validation can make; `Text` gives each one's wording. */
  datatype Complaint =
    | NameRequired
    | RentRequired | RentNotPositive | RentFormat
    | DueRequired | DueRange | DueNotNumber
    | FrequencyRequired | FrequencyChoice

  function Text(c: Complaint): string
  {
    match c
    case NameRequired => "Property name is required"
    case RentRequired => "Rent amount is required"
    case RentNotPositive => "Rent amount must be greater than 0"
    case RentFormat => "Invalid rent amount format"
    case DueRequired => "Due day is required"
    case DueRange => "Due day must be between 1 and 31"
    case DueNotNumber => "Due day must be a valid number"
    case FrequencyRequired => "Frequency is required"
    case FrequencyChoice => "Frequency must be weekly, fortnightly, or monthly"
  }

  /** The messages the route sends back, in order. */
  function Texts(cs: seq<Complaint>): (r: seq<string>)
    ensures |r| == |cs|
    ensures forall i :: 0 <= i < |cs| ==> r[i] == Text(cs[i])
  {
    seq(|cs|, i requires 0 <= i < |cs| => Text(cs[i]))
  }

  predicate KnownFrequency(v: Json)
  {
    v == JStr("weekly") || v == JStr("fortnightly") || v == JStr("monthly")
  }

  /** The rent given converts to a Decimal that compares greater than zero. */
  predicate RentOk(data: seq<(string, Json)>)
  {
    Given(data, "rent_amount")
    && var d := RentDecimal(Get(data, "rent_amount").value);
    d.Some? && IsPositive(d.value) == Some(true)
  }

  /** The due day given converts to an integer between 1 and 31. */
  predicate DueDayOk(data: seq<(string, Json)>)
  {
    Given(data, "due_day")
    && var n := DueDayInt(Get(data, "due_day").value);
    n.Some? && 1 <= n.value <= 31
  }

  predicate FrequencyOk(data: seq<(string, Json)>)
  {
    Given(data, "frequency") && KnownFrequency(Get(data, "frequency").value)
  }

  /** The body the create route accepts: every field given and well formed. */
  predicate Acceptable(data: seq<(string, Json)>)
  {
    Given(data, "name") && RentOk(data) && DueDayOk(data) && FrequencyOk(data)
  }

  function NameErrors(data: seq<(string, Json)>): seq<Complaint>
  {
    if !Given(data, "name") then [NameRequired] else []
  }

  function RentErrors(data: seq<(string, Json)>): seq<Complaint>
  {
    if !Given(data, "rent_amount") then [RentRequired]
    else
      match RentDecimal(Get(data, "rent_amount").value)
      case None => [RentFormat]
      case Some(d) =>
        match IsPositive(d)
        case None => [RentFormat]
        case Some(pos) => if pos then [] else [RentNotPositive]
  }

  function DueDayErrors(data: seq<(string, Json)>): seq<Complaint>
  {
    if !Given(data, "due_day") then [DueRequired]
    else
      match DueDayInt(Get(data, "due_day").value)
      case None => [DueNotNumber]
      case Some(n) => if n < 1 || n > 31 then [DueRange] else []
  }

  function FrequencyErrors(data: seq<(string, Json)>): seq<Complaint>
  {
    if !Given(data, "frequency") then [FrequencyRequired]
    else if !KnownFrequency(Get(data, "frequency").value) then [FrequencyChoice]
    else []
  }

  /** The messages validation reports: the checks of each field, in field order. */
  function ValidationErrors(data: seq<(string, Json)>): seq<Complaint>
  {
    NameErrors(data) + RentErrors(data) + DueDayErrors(data) + FrequencyErrors(data)
  }

  /** `validate_property_data` on a JSON object body. */
  method ValidatePropertyData(data: seq<(string, Json)>) returns (errors: seq<Complaint>)
    ensures errors == ValidationErrors(data)
  {
    errors := [];
    if !Given(data, "name") {
      errors := errors + [NameRequired];
    }
    assert errors == NameErrors(data);
    if !Given(data, "rent_amount") {
      errors := errors + [RentRequired];
    } else {
      var rent := RentDecimal(Get(data, "rent_amount").value);
      if rent.None? {
        errors := errors + [RentFormat];
      } else {
        var positive := IsPositive(rent.value);
        if positive.None? {
          errors := errors + [RentFormat];
        } else if !positive.value {
          errors := errors + [RentNotPositive];
        }
      }
    }
    assert errors == NameErrors(data) + RentErrors(data);
    if !Given(data, "due_day") {
      errors := errors + [DueRequired];
    } else {
      var dueDay := DueDayInt(Get(data, "due_day").value);
      if dueDay.None? {
        errors := errors + [DueNotNumber];
      } else if dueDay.value < 1 || dueDay.value > 31 {
        errors := errors + [DueRange];
      }
    }
    assert errors == NameErrors(data) + RentErrors(data) + DueDayErrors(data);
    if !Given(data, "frequency") {
      errors := errors + [FrequencyRequired];
    } else if !KnownFrequency(Get(data, "frequency").value) {
      errors := errors + [FrequencyChoice];
    }
  }

  /** A body passes validation exactly when every field is given and well formed. */
  lemma ValidationEmptyIff(data: seq<(string, Json)>)
    ensures ValidationErrors(data) == [] <==> Acceptable(data)
  {
  }

  /** The field a complaint is about: 0 name, 1 rent, 2 due day, 3 frequency. */
  function FieldOf(c: Complaint): (k: nat)
    ensures k < 4
  {
    match c
    case NameRequired => 0
    case RentRequired | RentNotPositive | RentFormat => 1
    case DueRequired | DueRange | DueNotNumber => 2
    case FrequencyRequired | FrequencyChoice => 3
  }

  /** Validation reports at most one message per field, in the order name, rent, due day, frequency. */
  lemma ValidationFieldOrder(data: seq<(string, Json)>)
    ensures |ValidationErrors(data)| <= 4
    ensures forall i, j :: 0 <= i < j < |ValidationErrors(data)| ==>
      FieldOf(ValidationErrors(data)[i]) < FieldOf(ValidationErrors(data)[j])
  {
    var n := NameErrors(data);
    var r := RentErrors(data);
    var d := DueDayErrors(data);
    var f := FrequencyErrors(data);
    assert forall m :: m in n ==> FieldOf(m) == 0;
    assert forall m :: m in r ==> FieldOf(m) == 1;
    assert forall m :: m in d ==> FieldOf(m) == 2;
    assert forall m :: m in f ==> FieldOf(m) == 3;
    var all := ValidationErrors(data);
    forall i, j | 0 <= i < j < |all|
      ensures FieldOf(all[i]) < FieldOf(all[j])
    {
      assert all == n + r + d + f;
      assert |n| <= 1 && |r| <= 1 && |d| <= 1 && |f| <= 1;
    }
  }

  /** Every complaint of a field's check is among the complaints validation reports. */
  lemma FieldErrorsReported(data: seq<(string, Json)>)
    ensures forall m :: m in NameErrors(data) ==> m in ValidationErrors(data)
    ensures forall m :: m in RentErrors(data) ==> m in ValidationErrors(data)
    ensures forall m :: m in DueDayErrors(data) ==> m in ValidationErrors(data)
    ensures forall m :: m in FrequencyErrors(data) ==> m in ValidationErrors(data)
  {
  }

  /**
   * A rent that is missing, null, zero, false or the empty string is
   * reported as required, and only as that; the string "0" is given, so it is
   * reported as not greater than zero instead.
   */
  lemma FalsyRentRequired(data: seq<(string, Json)>)
    requires Get(data, "rent_amount").None? || !Truthy(Get(data, "rent_amount").value)
    ensures RentRequired in ValidationErrors(data)
    ensures RentFormat !in ValidationErrors(data) && RentNotPositive !in ValidationErrors(data)
  {
    var n, d, f := NameErrors(data), DueDayErrors(data), FrequencyErrors(data);
    assert RentErrors(data) == [RentRequired];
    assert RentFormat !in n && RentFormat !in d && RentFormat !in f;
    assert RentNotPositive !in n && RentNotPositive !in d && RentNotPositive !in f;
    assert ValidationErrors(data) == n + [RentRequired] + d + f;
  }

  lemma RentDecimalZero()
    ensures RentDecimal(JStr("0")) == Some(Finite(0, 0))
  {
    assert AllDigits("0");
    ParseDecimalDigits("0");
    assert "0"[..0] == [];
    assert DigitsValue("0") == 0;
  }

  /** The string "0" is a given rent (it is not empty), so it is reported as not greater than zero. */
  lemma ZeroStringRent(data: seq<(string, Json)>)
    requires Get(data, "rent_amount") == Some(JStr("0"))
    ensures RentErrors(data) == [RentNotPositive]
  {
    RentDecimalZero();
    assert Truthy(JStr("0"));
  }

  lemma ParseDecimalAbc()
    ensures ParseDecimal("abc") == None
  {
    assert LStrip("abc") == "abc";
    assert RStrip("abc") == "abc";
    assert Lower("abc") == "abc";
    assert ParseUnsigned("abc") == ParseFinite("abc");
    assert FindEither("abc", 'e', 'E') == 3;
    assert "abc"[..3] == "abc";
    assert FindEither("abc", '.', '.') == 3;
    assert !IsAsciiDigit(("abc" + "")[0]);
  }

  /** Text that is not a numeral, such as "abc", is reported as a bad format. */
  lemma TextRentBadFormat(data: seq<(string, Json)>)
    requires Get(data, "rent_amount") == Some(JStr("abc"))
    ensures RentErrors(data) == [RentFormat]
  {
    ParseDecimalAbc();
    var v := Get(data, "rent_amount").value;
    assert Truthy(v);
    assert RentDecimal(v) == None;
  }

  lemma DueDayIntFriday()
    ensures DueDayInt(JStr("friday")) == None
  {
    assert LStrip("friday") == "friday";
    assert RStrip("friday") == "friday";
    assert !IsAsciiDigit("friday"[0]);
    assert !AllDigits("friday");
  }

  /**
   * A weekday name as the due day (what the SQLite schema stores and the
   * smart scheduler reads) is not a number, so the create route rejects it.
   */
  lemma WeekdayDueDayRejected(data: seq<(string, Json)>)
    requires Get(data, "due_day") == Some(JStr("friday"))
    ensures DueDayErrors(data) == [DueNotNumber]
  {
    DueDayIntFriday();
    var v := Get(data, "due_day").value;
    assert Truthy(v);
  }

  /** One space on each side of a word is stripped away. */
  lemma StripPadded(s: string)
    requires s != [] && !IsSpace(s[0]) && !IsSpace(s[|s| - 1])
    ensures Strip(" " + s + " ") == s
  {
    var t := " " + s + " ";
    assert t[0] == ' ';
    assert t[1..] == s + " ";
    assert (s + " ")[0] == s[0];
    assert LStrip(t) == s + " ";
    assert (s + " ")[..|s|] == s;
    assert RStrip(s) == s;
  }

  lemma DueDayIntPadded(n: nat)
    ensures DueDayInt(JStr(" " + NatToString(n) + " ")) == Some(n)
  {
    var s := NatToString(n);
    assert IsAsciiDigit(s[0]) && IsAsciiDigit(s[|s| - 1]);
    StripPadded(s);
    StripDigits(s);
    DueDayIntNatString(n);
  }

  /** A due day given as text is read after stripping: " 15 " is day 15 and valid. */
  lemma PaddedDueDayAccepted(data: seq<(string, Json)>, n: nat)
    requires 1 <= n <= 31 && Get(data, "due_day") == Some(JStr(" " + NatToString(n) + " "))
    ensures DueDayErrors(data) == []
  {
    DueDayIntPadded(n);
  }

  /** The frequency must match one of the three names exactly, letter case included. */
  lemma FrequencyExact(data: seq<(string, Json)>)
    requires Get(data, "frequency") == Some(JStr("Weekly"))
    ensures FrequencyErrors(data) == [FrequencyChoice]
  {
  }

  // ---------------------------------------------------------------------------
  // create_property

  const CreateFailed := "Failed to create property"

  /** `'; '.join(messages)`. */
  function JoinMessages(messages: seq<string>): (r: string)
    ensures messages != [] ==> StartsWith(r, messages[0])
    ensures |messages| == 1 ==> r == messages[0]
  {
    if messages == [] then ""
    else if |messages| == 1 then messages[0]
    else messages[0] + "; " + JoinMessages(messages[1..])
  }

  /** The values the create route passes to `Property.create_property`. */
  datatype NewProperty = NewProperty(
    name: string,
    address: string,
    rent: Decimal,
    dueDay: int,
    frequency: string,
    tenantNickname: Option<string>)

  /** `data.get(key, '').strip()`: None where the value is not a string (`.strip()` raises). */
  function StrippedOr(data: seq<(string, Json)>, key: string): (r: Option<string>)
    ensures r.Some? ==> Strip(r.value) == r.value
  {
    match Get(data, key)
    case None => Some("")
    case Some(JStr(s)) => StripIdempotent(s); Some(Strip(s))
    case Some(_) => None
  }

  /**
   * The create route up to the insert: a 400 with the joined validation
   * messages, a 500 (`CreateFailed`) where reading the body raises, or the
   * record to insert.
   */
  datatype CreateOutcome = Rejected(message: string) | Failed(message: string) | Insert(record: NewProperty)

  function CreateProperty(body: Json): (r: CreateOutcome)
    ensures r.Failed? ==> r.message == CreateFailed
    ensures r.Insert? ==> body.JObject? && Acceptable(body.entries)
    ensures r.Insert? ==>
      && IsPositive(r.record.rent) == Some(true) && 1 <= r.record.dueDay <= 31
      && KnownFrequency(JStr(r.record.frequency))
    ensures r.Insert? ==>
      && Strip(r.record.name) == r.record.name && Strip(r.record.address) == r.record.address
      && r.record.tenantNickname != Some("")
  {
    if !body.JObject? then Failed(CreateFailed)
    else
      var data := body.entries;
      var errors := ValidationErrors(data);
      ValidationEmptyIff(data);
      if errors != [] then Rejected(JoinMessages(Texts(errors)))
      else
        var name := Get(data, "name").value;
        var address := StrippedOr(data, "address");
        var nickname := StrippedOr(data, "tenant_nickname");
        if !name.JStr? || address.None? || nickname.None? then Failed(CreateFailed)
        else
          var rent := RentDecimal(Get(data, "rent_amount").value);
          var dueDay := DueDayInt(Get(data, "due_day").value);
          var frequency := Get(data, "frequency").value;
          if rent.None? || dueDay.None? || !frequency.JStr? then Failed(CreateFailed)
          else
            StripIdempotent(name.s);
            Insert(NewProperty(Strip(name.s), address.value, rent.value, dueDay.value, frequency.s,
                               if nickname.value == "" then None else Some(nickname.value)))
  }

  /** The create route rejects exactly the bodies validation objects to, with all their messages. */
  lemma CreateRejects(body: Json)
    requires body.JObject?
    ensures CreateProperty(body).Rejected? <==> ValidationErrors(body.entries) != []
    ensures ValidationErrors(body.entries) != [] ==>
      CreateProperty(body) == Rejected(JoinMessages(Texts(ValidationErrors(body.entries))))
  {
  }

  /**
   * A name of spaces only is given (a non-empty string is truthy), so it
   * passes validation and the property is created with an empty name.
   */
  lemma BlankNameAccepted(data: seq<(string, Json)>, name: string)
    requires name != "" && AllSpace(name) && Get(data, "name") == Some(JStr(name))
    requires Acceptable(data)
    requires Get(data, "address").None? && Get(data, "tenant_nickname").None?
    ensures CreateProperty(JObject(data)).Insert?
    ensures CreateProperty(JObject(data)).record.name == ""
  {
    ValidationEmptyIff(data);
    assert ValidationErrors(data) == [];
    assert StrippedOr(data, "address") == Some("") && StrippedOr(data, "tenant_nickname") == Some("");
    assert RentDecimal(Get(data, "rent_amount").value).Some?;
    assert DueDayInt(Get(data, "due_day").value).Some?;
    StripEmpty(name);
  }

  // ---------------------------------------------------------------------------
  // validate_property: the readiness review of a stored property

  const InvalidRent := "Invalid rent amount"
  const InvalidDueDay := "Invalid due day"
  const InvalidFrequency := "Invalid frequency"
  const LowWeekly := "Weekly rent seems unusually low"
  const LowMonthly := "Monthly rent seems unusually low"

  /** Rent below these (in cents) is flagged as unusually low. */
  const WeeklyFloorCents := 10000
  const MonthlyFloorCents := 40000

  /**
   * A stored property's review: the issues found, or an error where
   * comparing the due day with a number raises (a weekday name stored by the
   * SQLite schema), which the route reports as a 500.
   */
  function PropertyIssues(p: Domain.Property): (r: Result<seq<string>>)
  {
    if p.dueDay.DayName? && p.dueDay.name != "" then Err("Failed to validate property")
    else Ok(RentIssues(p) + DueDayIssues(p) + FrequencyIssues(p) + FloorIssues(p))
  }

  function RentIssues(p: Domain.Property): seq<string>
  {
    if p.rentCents <= 0 then [InvalidRent] else []
  }

  function DueDayIssues(p: Domain.Property): seq<string>
  {
    if p.dueDay.DayName? || p.dueDay.n < 1 || p.dueDay.n > 31 then [InvalidDueDay] else []
  }

  function FrequencyIssues(p: Domain.Property): seq<string>
  {
    if p.frequency != "weekly" && p.frequency != "fortnightly" && p.frequency != "monthly" then [InvalidFrequency] else []
  }

  /** The low-rent warnings, given only for a non-zero rent. */
  function FloorIssues(p: Domain.Property): seq<string>
  {
    if p.rentCents == 0 then []
    else if p.frequency == "weekly" && p.rentCents < WeeklyFloorCents then [LowWeekly]
    else if p.frequency == "monthly" && p.rentCents < MonthlyFloorCents then [LowMonthly]
    else []
  }

  datatype Review = Review(valid: bool, issues: seq<string>)

  /** `validate_property` after the ownership checks. */
  method ValidateProperty(p: Domain.Property) returns (r: Result<Review>)
    ensures PropertyIssues(p).Err? ==> r == Err(PropertyIssues(p).error)
    ensures PropertyIssues(p).Ok? ==>
      r == Ok(Review(PropertyIssues(p).value == [], PropertyIssues(p).value))
  {
    if p.dueDay.DayName? && p.dueDay.name != "" {
      return Err("Failed to validate property");
    }
    var issues: seq<string> := [];
    if p.rentCents == 0 || p.rentCents <= 0 {
      issues := issues + [InvalidRent];
    }
    assert issues == RentIssues(p);
    if p.dueDay.DayName? || p.dueDay.n < 1 || p.dueDay.n > 31 {
      issues := issues + [InvalidDueDay];
    }
    assert issues == RentIssues(p) + DueDayIssues(p);
    if p.frequency != "weekly" && p.frequency != "fortnightly" && p.frequency != "monthly" {
      issues := issues + [InvalidFrequency];
    }
    assert issues == RentIssues(p) + DueDayIssues(p) + FrequencyIssues(p);
    if p.rentCents != 0 {
      if p.frequency == "weekly" && p.rentCents < WeeklyFloorCents {
        issues := issues + [LowWeekly];
      } else if p.frequency == "monthly" && p.rentCents < MonthlyFloorCents {
        issues := issues + [LowMonthly];
      }
    }
    assert issues == RentIssues(p) + DueDayIssues(p) + FrequencyIssues(p) + FloorIssues(p);
    assert |issues| == 0 <==> issues == [];
    r := Ok(Review(|issues| == 0, issues));
  }

  /**
   * A property with a numeric due day passes the review exactly when its
   * rent is positive and not below the floor of its frequency (fortnightly
   * has none), its due day is 1..31 and its frequency is known.
   */
  lemma ReviewValidIff(p: Domain.Property)
    requires p.dueDay.DayNumber?
    ensures PropertyIssues(p).Ok?
    ensures PropertyIssues(p).value == [] <==>
      && p.rentCents > 0 && 1 <= p.dueDay.n <= 31
      && p.frequency in {"weekly", "fortnightly", "monthly"}
      && (p.frequency == "weekly" ==> p.rentCents >= WeeklyFloorCents)
      && (p.frequency == "monthly" ==> p.rentCents >= MonthlyFloorCents)
  {
  }

  /** A negative weekly rent is non-zero, hence also flagged as unusually low. */
  lemma NegativeWeeklyRentTwoIssues(p: Domain.Property)
    requires p.dueDay == Domain.DayNumber(1) && p.frequency == "weekly" && p.rentCents < 0
    ensures PropertyIssues(p) == Ok([InvalidRent, LowWeekly])
  {
    assert RentIssues(p) + DueDayIssues(p) + FrequencyIssues(p) + FloorIssues(p) == [InvalidRent] + [] + [] + [LowWeekly];
    assert [InvalidRent] + [] + [] + [LowWeekly] == [InvalidRent, LowWeekly];
  }

  /** A stored weekday name as the due day makes the review fail; an empty one is an issue. */
  lemma ReviewWeekdayDueDay(p: Domain.Property)
    requires p.dueDay.DayName?
    ensures p.dueDay.name != "" ==> PropertyIssues(p).Err?
    ensures p.dueDay.name == "" ==> PropertyIssues(p).Ok? && InvalidDueDay in PropertyIssues(p).value
  {
  }
}

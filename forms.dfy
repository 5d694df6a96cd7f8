/** The validator chains of the platform's four forms, as predicates over
    the raw submitted values. A raw value is `None` when the field is absent
    from the request. WTForms semantics that matter here:
    - `Optional()` stops the chain, clearing earlier errors, when the raw
      input is missing or blank;
    - `Length(min, max)` measures `len(data)`, taking missing data as 0;
    - `DataRequired()` wants non-blank data, `InputRequired()` a non-empty
      raw value;
    - a `SelectField` rejects a value that is not one of its choice values;
    - `FileAllowed(exts)` wants the lower-cased file name to end with '.'
      and an allowed extension.
    E-mail syntax (`Email()`) and the CSRF token are taken as given verdicts. */
module Forms {
  import opened Common

  /** `NGO_TYPES`: (value, label) pairs. */
  const NgoTypes: seq<(string, string)> := [
    ("Education", "Education"),
    ("Health", "Health & Wellness"),
    ("Environment", "Environmental Conservation"),
    ("Poverty", "Poverty Alleviation"),
    ("Arts", "Arts & Culture"),
    ("Animal Welfare", "Animal Welfare"),
    ("Other", "Other (Please specify in mission)")
  ]

  /** The search form's category choices: the empty value, then `NGO_TYPES`. */
  const CategoryChoices: seq<(string, string)> := [("", "All Categories")] + NgoTypes

  function ChoiceValues(choices: seq<(string, string)>): (r: seq<string>)
    ensures |r| == |choices|
    ensures forall i :: 0 <= i < |choices| ==> r[i] == choices[i].0
  {
    if choices == [] then [] else [choices[0].0] + ChoiceValues(choices[1..])
  }

  datatype Upload = Upload(filename: string)

  datatype Decimal = Decimal(units: int, scale: nat)  // units / 10^scale

  datatype EmailSubmission = EmailSubmission(email: Option<string>, emailSyntaxOk: bool, csrfOk: bool)

  datatype NgoSubmission = NgoSubmission(
    name: Option<string>,
    ngoType: Option<string>,
    mission: Option<string>,
    contactEmail: Option<string>,
    website: Option<string>,
    registrationDocument: Option<Upload>,
    financialReport: Option<Upload>,
    csrfOk: bool)

  datatype DonationSubmission = DonationSubmission(
    donorName: Option<string>,
    donorEmail: Option<string>,
    emailSyntaxOk: bool,
    amount: Option<Decimal>,  // `None`: missing, empty or not a decimal literal
    ngoId: Option<string>,
    csrfOk: bool)

  datatype SearchSubmission = SearchSubmission(
    searchTerm: Option<string>,
    category: Option<string>,
    location: Option<string>,
    csrfOk: bool)

  /** `len(field.data)`, or 0 when there is no data. */
  function DataLength(data: Option<string>): nat {
    if data.Some? then |data.value| else 0
  }

  predicate DataRequired(data: Option<string>) {
    data.Some? && !IsBlank(data.value)
  }

  predicate InputRequired(raw: Option<string>) {
    raw.Some? && raw.value != ""
  }

  /** `[Optional(), Length(max=max)]`, in either order. */
  predicate OptionalWithin(raw: Option<string>, min: nat, max: nat) {
    BlankInput(raw) || min <= DataLength(raw) <= max
  }

  /** A select field under `Optional()`: blank, or one of the choice values. */
  predicate OptionalChoice(raw: Option<string>, choices: seq<(string, string)>) {
    BlankInput(raw) || raw.value in ChoiceValues(choices)
  }

  /** `s` ends with `suffix`. */
  predicate EndsWith(s: string, suffix: string) {
    |suffix| <= |s| && s[|s| - |suffix|..] == suffix
  }

  /** `FileAllowed(exts)`: no file chosen, or the lower-cased file name ends
      with a dot and one of the allowed extensions. */
  predicate FileAllowed(upload: Option<Upload>, exts: seq<string>) {
    upload.None? || upload.value.filename == "" ||
    exists e :: e in exts && EndsWith(Lower(upload.value.filename), "." + e)
  }

  /** A chosen file whose name has no dot is refused, whatever the allowed
      extensions: a file named `pdf` is not a pdf. */
  lemma DotlessRejected(name: string, exts: seq<string>)
    requires name != "" && '.' !in name
    ensures !FileAllowed(Some(Upload(name)), exts)
  {
    var lower := Lower(name);
    forall e | e in exts
      ensures !EndsWith(lower, "." + e)
    {
      var i := |name| - |e| - 1;
      if 0 <= i {
        assert name[i] != '.';
        assert lower[i] != '.';
      }
    }
  }

  /** The file name's case does not matter: `REPORT.PDF` is a pdf. */
  lemma UpperCaseAccepted(stem: string)
    ensures FileAllowed(Some(Upload(stem + ".PDF")), ["pdf"])
  {
    var name := stem + ".PDF";
    var lower := Lower(name);
    assert lower[|name| - 4..] == ".pdf";
    assert "pdf" in ["pdf"] && EndsWith(lower, "." + "pdf");
  }

  /** `EmailForm`: `DataRequired(), Email(), Length(max=120)`. */
  predicate EmailFormValid(s: EmailSubmission)
    ensures EmailFormValid(s) ==> s.email.Some? && 0 < |s.email.value| <= 120 && !IsBlank(s.email.value)
    ensures EmailFormValid(s) ==> s.emailSyntaxOk && s.csrfOk
  {
    s.csrfOk && DataRequired(s.email) && s.emailSyntaxOk && DataLength(s.email) <= 120
  }

  /** `NGOForm`: every field optional; the name at most 128 characters, the
      type one of `NGO_TYPES`, the mission 50 to 1000 characters, the
      registration document a pdf, jpg or png, the financial report a pdf. */
  predicate NgoFormValid(s: NgoSubmission)
    ensures NgoFormValid(s) && !BlankInput(s.name) ==> |s.name.value| <= 128
    ensures NgoFormValid(s) && !BlankInput(s.mission) ==> 50 <= |s.mission.value| <= 1000
    ensures NgoFormValid(s) && !BlankInput(s.ngoType) ==>
              exists i :: 0 <= i < |NgoTypes| && s.ngoType.value == NgoTypes[i].0
    ensures NgoFormValid(s) && s.registrationDocument.Some? && s.registrationDocument.value.filename != "" ==>
              exists e :: e in ["pdf", "jpg", "png"] && EndsWith(Lower(s.registrationDocument.value.filename), "." + e)
    ensures NgoFormValid(s) && s.financialReport.Some? && s.financialReport.value.filename != "" ==>
              EndsWith(Lower(s.financialReport.value.filename), ".pdf")
  {
    && s.csrfOk
    && OptionalWithin(s.name, 0, 128)
    && OptionalChoice(s.ngoType, NgoTypes)
    && OptionalWithin(s.mission, 50, 1000)
    && FileAllowed(s.registrationDocument, ["pdf", "jpg", "png"])
    && FileAllowed(s.financialReport, ["pdf"])
  }

  function Pow10(n: nat): (p: nat)
    ensures p >= 1
  {
    if n == 0 then 1 else 10 * Pow10(n - 1)
  }

  /** `NumberRange(min=1.00)`. */
  predicate AtLeastOne(d: Decimal) {
    d.units >= Pow10(d.scale)
  }

  /** `DonationForm`: an optional name of at most 100 characters, a required
      e-mail of at most 120, a required amount of at least 1.00 and the
      hidden organisation id. `places=2` only formats the field; it does not
      restrict the submitted digits. */
  predicate DonationFormValid(s: DonationSubmission)
    ensures DonationFormValid(s) ==> s.amount.Some? && AtLeastOne(s.amount.value)
    ensures DonationFormValid(s) ==> s.donorEmail.Some? && 0 < |s.donorEmail.value| <= 120
    ensures DonationFormValid(s) && !BlankInput(s.donorName) ==> |s.donorName.value| <= 100
  {
    && s.csrfOk
    && OptionalWithin(s.donorName, 0, 100)
    && InputRequired(s.donorEmail) && s.emailSyntaxOk && DataLength(s.donorEmail) <= 120
    && s.amount.Some? && AtLeastOne(s.amount.value)
    && InputRequired(s.ngoId)
  }

  /** `SearchForm`: a term of at most 100 characters, a location of at most
      50, and a category that is blank or one of `CategoryChoices`. */
  predicate SearchFormValid(s: SearchSubmission)
    ensures SearchFormValid(s) ==> DataLength(s.searchTerm) <= 100 && DataLength(s.location) <= 50
    ensures SearchFormValid(s) && !BlankInput(s.category) ==>
              exists i :: 0 <= i < |CategoryChoices| && s.category.value == CategoryChoices[i].0
  {
    && s.csrfOk
    && DataLength(s.searchTerm) <= 100
    && OptionalChoice(s.category, CategoryChoices)
    && DataLength(s.location) <= 50
  }

  /** `Pow10` turns a sum of exponents into a product. */
  lemma {:induction false} Pow10Add(a: nat, b: nat)
    ensures Pow10(a + b) == Pow10(a) * Pow10(b)
  {
    if a > 0 {
      Pow10Add(a - 1, b);
    }
  }

  /** The precision of Python's default decimal context: a product is
      rounded to 28 significant digits, halves to even. */
  const Precision: nat := 28

  /** The number of decimal digits of `n` (none for 0). */
  function Digits(n: nat): (k: nat)
    ensures n < Pow10(k)
    ensures n > 0 ==> k >= 1 && Pow10(k - 1) <= n
  {
    if n == 0 then 0 else 1 + Digits(n / 10)
  }

  /** `c / 10^drop` rounded to the nearest integer, a tie going to the even
      neighbour. */
  function RoundHalfEven(c: nat, drop: nat): int {
    var p := Pow10(drop);
    var q := c / p;
    var r := c - q * p;  // the remainder
    if 2 * r > p || (2 * r == p && q % 2 == 1) then q + 1 else q
  }

  /** The rounded quotient is a nearest integer to `c / 10^drop`, even on a
      tie, and never below the truncated one. */
  lemma RoundHalfEvenNearest(c: nat, drop: nat)
    ensures var q := RoundHalfEven(c, drop);
            && 2 * c <= 2 * (q * Pow10(drop)) + Pow10(drop)
            && 2 * (q * Pow10(drop)) <= 2 * c + Pow10(drop)
            && (2 * c == 2 * (q * Pow10(drop)) + Pow10(drop) || 2 * (q * Pow10(drop)) == 2 * c + Pow10(drop) ==> q % 2 == 0)
            && c / Pow10(drop) <= q <= c / Pow10(drop) + 1
  {
    var p := Pow10(drop);
    DivisionBounds(c, p);
    RoundStep(c, p, c / p, RoundHalfEven(c, drop));
  }

  /** One rounding step with the quotient `t` and divisor `p` as plain
      numbers. */
  lemma RoundStep(c: nat, p: nat, t: int, q: int)
    requires p >= 1 && p * t <= c < p * t + p
    requires q == if 2 * (c - t * p) > p || (2 * (c - t * p) == p && t % 2 == 1) then t + 1 else t
    ensures 2 * c <= 2 * (q * p) + p && 2 * (q * p) <= 2 * c + p
    ensures 2 * c == 2 * (q * p) + p || 2 * (q * p) == 2 * c + p ==> q % 2 == 0
    ensures t <= q <= t + 1
  {
    if q == t + 1 {
      Distribute(t, p);
    }
  }

  /** `int(x / 10^scale)` for the product `x` of a non-negative amount's
      digits and 100, once the product is rounded to `Precision`
      significant digits; `int` then truncates. */
  function CentsOf(c: nat, scale: nat): int {
    var k := Digits(c);
    if k <= Precision then c / Pow10(scale)
    else
      var drop := k - Precision;
      var q := RoundHalfEven(c, drop);
      if scale <= drop then q * Pow10(drop - scale) else q / Pow10(scale - drop)
  }

  /** `int(amount * 100)`: the decimal product, rounded in the default
      context, truncated toward zero by `int`. */
  function AmountCents(d: Decimal): int {
    if d.units >= 0 then CentsOf(d.units * 100, d.scale) else -CentsOf(-(d.units * 100), d.scale)
  }

  lemma DivisionBounds(n: nat, p: nat)
    requires p >= 1
    ensures p * (n / p) <= n < p * (n / p) + p
  {
  }

  lemma MultiplyMonotone(a: nat, b: nat, p: nat)
    requires a <= b
    ensures a * p <= b * p
  {
  }

  lemma {:induction false} DivisionAtLeast(n: nat, p: nat, k: nat)
    requires p >= 1 && n >= k * p
    ensures n / p >= k
  {
    DivisionBounds(n, p);
    var q := n / p;
    assert k * p < (q + 1) * p;
    if q + 1 <= k {
      MultiplyMonotone(q + 1, k, p);
    }
  }

  lemma {:induction false} Pow10Monotone(a: nat, b: nat)
    requires a <= b
    ensures Pow10(a) <= Pow10(b)
  {
    if a < b {
      Pow10Monotone(a, b - 1);
    }
  }

  /** `n` has `k` digits exactly when it lies in `[10^(k-1), 10^k)`. */
  lemma DigitsExact(n: nat, k: nat)
    requires k >= 1 && Pow10(k - 1) <= n < Pow10(k)
    ensures Digits(n) == k
  {
    var j := Digits(n);
    if j < k {
      Pow10Monotone(j, k - 1);
    } else if j > k {
      Pow10Monotone(k, j - 1);
    }
  }

  lemma Distribute(a: int, p: int)
    ensures (a + 1) * p == a * p + p
  {
  }

  lemma Associate(x: int, y: int, z: int)
    ensures (x * y) * z == x * (y * z)
  {
  }

  /** Rounding a product of 29 or more digits keeps 28 of them, so when the
      decimal point falls after them the cents are at least 10^27. */
  lemma {:induction false} CoarseAtLeastHundred(c: nat, scale: nat, drop: nat)
    requires scale <= drop && Pow10(27 + drop) <= c
    ensures RoundHalfEven(c, drop) * Pow10(drop - scale) >= 100
  {
    var q := RoundHalfEven(c, drop);
    RoundHalfEvenNearest(c, drop);
    Pow10Add(27, drop);
    DivisionAtLeast(c, Pow10(drop), Pow10(27));
    Pow10Monotone(2, 27);
    assert Pow10(2) == 100;
    MultiplyMonotone(1, Pow10(drop - scale), q);
  }

  /** When the decimal point falls inside the kept digits, rounding keeps
      at least the whole-cent part of an amount of at least 1.00. */
  lemma {:induction false} FineAtLeastHundred(c: nat, scale: nat, drop: nat)
    requires drop < scale && 100 * Pow10(scale) <= c
    ensures RoundHalfEven(c, drop) / Pow10(scale - drop) >= 100
  {
    var e := scale - drop;
    var q := RoundHalfEven(c, drop);
    RoundHalfEvenNearest(c, drop);
    Pow10Add(e, drop);
    Associate(100, Pow10(e), Pow10(drop));
    DivisionAtLeast(c, Pow10(drop), 100 * Pow10(e));
    DivisionAtLeast(q, Pow10(e), 100);
  }

  /** A product worth at least 100 stays at least 100 cents, rounded or not. */
  lemma {:induction false} CentsAtLeastHundred(c: nat, scale: nat)
    requires c >= 100 * Pow10(scale)
    ensures CentsOf(c, scale) >= 100
  {
    var k := Digits(c);
    if k <= Precision {
      DivisionAtLeast(c, Pow10(scale), 100);
    } else {
      var drop := k - Precision;
      assert k - 1 == 27 + drop;
      if scale <= drop {
        CoarseAtLeastHundred(c, scale, drop);
      } else {
        FineAtLeastHundred(c, scale, drop);
      }
    }
  }

  /** An accepted amount becomes at least 100 cents. When the product has
      at most 28 digits nothing is rounded, and the cents are the amount
      truncated (never rounded up) to whole cents. */
  lemma {:induction false} AmountCentsTruncates(d: Decimal)
    requires AtLeastOne(d)
    ensures AmountCents(d) >= 100
    ensures Digits(d.units * 100) <= Precision ==>
              AmountCents(d) * Pow10(d.scale) <= d.units * 100 < (AmountCents(d) + 1) * Pow10(d.scale)
  {
    var n: nat := d.units * 100;
    assert AmountCents(d) == CentsOf(n, d.scale);
    CentsAtLeastHundred(n, d.scale);
    if Digits(n) <= Precision {
      UnroundedTruncates(n, d.scale);
    }
  }

  /** A product of at most 28 digits is not rounded: the cents are its
      whole part. */
  lemma UnroundedTruncates(n: nat, scale: nat)
    requires Digits(n) <= Precision
    ensures CentsOf(n, scale) * Pow10(scale) <= n < (CentsOf(n, scale) + 1) * Pow10(scale)
  {
    var p := Pow10(scale);
    var a := n / p;
    assert CentsOf(n, scale) == a;
    DivisionBounds(n, p);
    Distribute(a, p);
  }

  /** A product of more than 28 digits is rounded before it is truncated:
      1.2399999999999999999999999999 becomes 124 cents, not 123. */
  lemma RoundedBeforeTruncation()
    ensures AmountCents(Decimal(12399999999999999999999999999, 28)) == 124
  {
    var c: nat := 1239999999999999999999999999900;
    Pow10Add(1, 1);
    Pow10Add(2, 1);
    Pow10Add(2, 2);
    Pow10Add(4, 4);
    Pow10Add(8, 8);
    Pow10Add(16, 8);
    Pow10Add(24, 1);
    Pow10Add(25, 3);
    Pow10Add(28, 2);
    Pow10Add(30, 1);
    assert Pow10(3) == 1000;
    assert Pow10(25) == 10000000000000000000000000;
    assert Pow10(28) == 10000000000000000000000000000;
    DigitsExact(c, 31);
    assert RoundHalfEven(c, 3) == 1240000000000000000000000000;
    assert CentsOf(c, 28) == 1240000000000000000000000000 / Pow10(25);
  }

  /** The search form's category check accepts a blank category or one of
      the `NGO_TYPES` values, and nothing else: its extra `''` choice is
      itself blank. */
  lemma CategoryAccepted(category: string)
    ensures OptionalChoice(Some(category), CategoryChoices) <==> IsBlank(category) || category in ChoiceValues(NgoTypes)
  {
    assert CategoryChoices[1..] == NgoTypes;
    assert ChoiceValues(CategoryChoices) == [""] + ChoiceValues(NgoTypes);
  }
}

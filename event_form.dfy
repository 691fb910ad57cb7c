/** The event create/edit form: its validation rules, the `datetime-local`
    formatting of dates, and the reset that fills the form from initial
    values once categories and organizers have loaded. */
module EventForm {
  import opened Js
  import opened Text

  /** The form's fields as the validator sees them; a field never filled is None. */
  datatype FormValues = FormValues(
    name: Option<string>,
    description: Option<string>,
    location: Option<string>,
    startDate: Option<string>,
    endDate: Option<string>,
    organizerId: Option<string>,
    categoryId: Option<string>,
    subcategoryId: Option<string>)

  datatype Field = Name | Description | Location | StartDate | EndDate | OrganizerId | CategoryId | SubcategoryId

  /** `z.string().min(n)`: a string whose `length`, counted in UTF-16
      code units, is at least n. */
  predicate MinLength(v: Option<string>, n: nat)
  {
    v.Some? && JsLength(v.value) >= n
  }

  /** A date field passes when `new Date(String(value))` is a valid date;
      whether a string parses as a date is the parameter `isDate`, and an
      unfilled field is the string "undefined". */
  predicate DateOk(v: Option<string>, isDate: string -> bool)
  {
    isDate(OrElse(v, "undefined"))
  }

  /** Whether `eventSchema` rejects one field of the form. */
  predicate Rejects(v: FormValues, field: Field, isDate: string -> bool)
  {
    match field
    case Name => !MinLength(v.name, 3)
    case Description => !MinLength(v.description, 10)
    case Location => !MinLength(v.location, 2)
    case StartDate => !DateOk(v.startDate, isDate)
    case EndDate => !DateOk(v.endDate, isDate)
    case OrganizerId => !MinLength(v.organizerId, 1)
    case CategoryId => !MinLength(v.categoryId, 1)
    case SubcategoryId => !MinLength(v.subcategoryId, 1)
  }

  const AllFields: set<Field> := {Name, Description, Location, StartDate, EndDate, OrganizerId, CategoryId, SubcategoryId}

  /** The fields `eventSchema` rejects: the texts shorter than 3, 10 and 2
      code units, the ids that are empty, the dates that do not parse. */
  function Errors(v: FormValues, isDate: string -> bool): (r: set<Field>)
    ensures Name in r <==> v.name.None? || JsLength(v.name.value) < 3
    ensures Description in r <==> v.description.None? || JsLength(v.description.value) < 10
    ensures Location in r <==> v.location.None? || JsLength(v.location.value) < 2
    ensures OrganizerId in r <==> !Present(v.organizerId)
    ensures CategoryId in r <==> !Present(v.categoryId)
    ensures SubcategoryId in r <==> !Present(v.subcategoryId)
    ensures StartDate in r <==> !DateOk(v.startDate, isDate)
    ensures EndDate in r <==> !DateOk(v.endDate, isDate)
  {
    set f | f in AllFields && Rejects(v, f, isDate)
  }

  /** The form starts with no values (`defaultValues: {}`): submitting it
      straight away reports every text and id field. */
  lemma EmptyFormRejected(isDate: string -> bool)
    ensures {Name, Description, Location, OrganizerId, CategoryId, SubcategoryId}
            <= Errors(FormValues(None, None, None, None, None, None, None, None), isDate)
  {
  }

  /** An unfilled date is `new Date("undefined")`, which is never a valid
      date, so the empty form is also rejected on both dates. */
  lemma EmptyFormRejectsDates(isDate: string -> bool)
    requires !isDate("undefined")
    ensures {StartDate, EndDate} <= Errors(FormValues(None, None, None, None, None, None, None, None), isDate)
  {
  }

  /** Length is counted as JavaScript counts it: "🎉a" is three code units
      long and so is a long enough event name. */
  lemma EmojiNameLongEnough(v: FormValues, isDate: string -> bool)
    requires v.name == Some("\U{1F389}a")
    ensures Name !in Errors(v, isDate)
  {
    Utf16Examples();
  }

  // ----- datetime-local formatting -----

  /** `n.toString().padStart(2, "0")` */
  function Pad(n: nat): (r: string)
    ensures AllDigits(r) && |r| >= 2
    ensures n < 100 ==> |r| == 2
    ensures DigitsValue(r) == n
  {
    PadDigits(n);
    PadStart(NatToString(n), 2, '0')
  }

  lemma PadDigits(n: nat)
    ensures var r := PadStart(NatToString(n), 2, '0');
            AllDigits(r) && |r| >= 2 && (n < 100 ==> |r| == 2) && DigitsValue(r) == n
  {
    var r := PadStart(NatToString(n), 2, '0');
    if n < 10 {
      assert NatToString(n) == [DigitChar(n)];
      assert r == ['0', DigitChar(n)];
      assert r[..1] == ['0'];
      assert DigitsValue(r[..1]) == 0 by { assert r[..1][..0] == []; }
    } else {
      NatToStringRoundTrip(n);
      assert NatToString(n) == NatToString(n / 10) + [DigitChar(n % 10)];
      if n < 100 {
        NatToStringShort(n);
      }
    }
  }

  /** The local calendar fields of a `Date`: `getFullYear()`, `getMonth()`
      (0-based), `getDate()`, `getHours()` and `getMinutes()`. */
  datatype DateParts = DateParts(year: nat, month0: nat, day: nat, hours: nat, minutes: nat)

  /** `toInputDatetimeLocal(date)`: "YYYY-MM-DDTHH:mm", month 1-based. */
  function ToInputDatetimeLocal(d: DateParts): (r: string)
  {
    NatToString(d.year) + "-" + Pad(d.month0 + 1) + "-" + Pad(d.day) + "T" + Pad(d.hours) + ":" + Pad(d.minutes)
  }

  /** For a four-digit year and in-range fields the text is 16 characters:
      the year, the month, the day, the hours and the minutes, each padded,
      with "-", "-", "T" and ":" between them. */
  lemma DatetimeLocalLayout(d: DateParts)
    requires 1000 <= d.year <= 9999 && d.month0 < 12 && 1 <= d.day <= 31 && d.hours < 24 && d.minutes < 60
    ensures var r := ToInputDatetimeLocal(d);
            |r| == 16 && r[4] == '-' && r[7] == '-' && r[10] == 'T' && r[13] == ':'
            && r[..4] == NatToString(d.year) && r[5..7] == Pad(d.month0 + 1) && r[8..10] == Pad(d.day)
            && r[11..13] == Pad(d.hours) && r[14..] == Pad(d.minutes)
  {
    NatToStringFourDigits(d.year);
    var y, mo, da, h, mi := NatToString(d.year), Pad(d.month0 + 1), Pad(d.day), Pad(d.hours), Pad(d.minutes);
    assert ToInputDatetimeLocal(d) == y + "-" + mo + "-" + da + "T" + h + ":" + mi;
    Layout(y, mo, da, h, mi);
  }

  /** Each field of the text reads back as the number it came from, the
      month one above `getMonth()`. */
  lemma DatetimeLocalReadsBack(d: DateParts)
    requires 1000 <= d.year <= 9999 && d.month0 < 12 && 1 <= d.day <= 31 && d.hours < 24 && d.minutes < 60
    ensures var r := ToInputDatetimeLocal(d);
            |r| == 16
            && AllDigits(r[..4]) && DigitsValue(r[..4]) == d.year
            && AllDigits(r[5..7]) && DigitsValue(r[5..7]) == d.month0 + 1
            && AllDigits(r[8..10]) && DigitsValue(r[8..10]) == d.day
            && AllDigits(r[11..13]) && DigitsValue(r[11..13]) == d.hours
            && AllDigits(r[14..]) && DigitsValue(r[14..]) == d.minutes
  {
    DatetimeLocalLayout(d);
    NatToStringRoundTrip(d.year);
  }

  /** Where the five parts sit in the joined text. */
  lemma Layout(y: string, mo: string, da: string, h: string, mi: string)
    requires |y| == 4 && |mo| == 2 && |da| == 2 && |h| == 2 && |mi| == 2
    ensures var r := y + "-" + mo + "-" + da + "T" + h + ":" + mi;
            |r| == 16 && r[4] == '-' && r[7] == '-' && r[10] == 'T' && r[13] == ':'
            && r[..4] == y && r[5..7] == mo && r[8..10] == da && r[11..13] == h && r[14..] == mi
  {
  }

  // ----- loading and reset -----

  /** What the page passes as `initialValues`; dates are given by their
      calendar fields. */
  datatype InitialValues = InitialValues(
    name: Option<string>,
    description: Option<string>,
    location: Option<string>,
    startDate: Option<DateParts>,
    endDate: Option<DateParts>,
    organizerId: Option<string>,
    categoryId: Option<string>,
    subcategoryId: Option<string>)

  /** The reset effect: nothing (None) until there are initial values and
      both the category and organizer lists are non-empty; then the form
      takes the initial values, dates formatted for the input, missing ids
      as "" and missing dates left unset. */
  function ResetValues(initial: Option<InitialValues>, categories: nat, organizers: nat): (r: Option<FormValues>)
    ensures r.None? <==> initial.None? || categories == 0 || organizers == 0
    ensures r.Some? ==>
              var i := initial.value;
              r.value.name == i.name && r.value.description == i.description && r.value.location == i.location
              && r.value.organizerId == Some(OrElse(i.organizerId, ""))
              && r.value.categoryId == Some(OrElse(i.categoryId, ""))
              && r.value.subcategoryId == Some(OrElse(i.subcategoryId, ""))
              && (r.value.startDate.None? <==> i.startDate.None?)
              && (r.value.endDate.None? <==> i.endDate.None?)
              && (i.startDate.Some? ==> r.value.startDate == Some(ToInputDatetimeLocal(i.startDate.value)))
              && (i.endDate.Some? ==> r.value.endDate == Some(ToInputDatetimeLocal(i.endDate.value)))
  {
    if initial.None? || categories == 0 || organizers == 0 then None
    else
      var i := initial.value;
      Some(FormValues(
        i.name, i.description, i.location,
        if i.startDate.Some? then Some(ToInputDatetimeLocal(i.startDate.value)) else None,
        if i.endDate.Some? then Some(ToInputDatetimeLocal(i.endDate.value)) else None,
        Some(OrElse(i.organizerId, "")),
        Some(OrElse(i.categoryId, "")),
        Some(OrElse(i.subcategoryId, ""))))
  }

  /** A reset from initial values lacking an id still fails validation on
      that id: the "" it is filled with is too short. */
  lemma ResetWithoutIdsRejected(initial: InitialValues, categories: nat, organizers: nat, isDate: string -> bool)
    requires categories > 0 && organizers > 0
    ensures var r := ResetValues(Some(initial), categories, organizers);
            r.Some?
            && (initial.organizerId.None? ==> OrganizerId in Errors(r.value, isDate))
            && (initial.categoryId.None? ==> CategoryId in Errors(r.value, isDate))
            && (initial.subcategoryId.None? ==> SubcategoryId in Errors(r.value, isDate))
  {
  }

  /** The subcategory list is fetched only once a category is chosen. */
  predicate ShouldFetchSubcategories(selectedCategoryId: Option<string>)
  {
    Present(selectedCategoryId)
  }

  /** Exactly the chosen categories that pass validation trigger the fetch. */
  lemma FetchExactlyForValidCategory(v: FormValues, isDate: string -> bool)
    ensures ShouldFetchSubcategories(v.categoryId) <==> CategoryId !in Errors(v, isDate)
  {
  }
}

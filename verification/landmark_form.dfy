/**
 * The dashboard's landmark form (`LandmarkForm.tsx`): a stored record is
 * turned into the form's text fields, and the fields are turned back into
 * the row sent to the database, as an update of the record or an insert.
 *
 * JavaScript's `parseFloat`, `parseInt` and number-to-string conversion are
 * uninterpreted: they are function-valued fields of `JsRuntime`.
 */
module LandmarkForm {
  import opened Wrappers

  /** A JavaScript number: a value, or NaN (what `parseFloat("")` gives). */
  datatype JsNumber = Num(value: real) | NaN

  datatype JsRuntime = JsRuntime(
    parseFloat: string -> JsNumber,
    parseInt: string -> JsNumber,
    numberToString: real -> string)

  /** A landmark as the database returns it; absent columns are `None`. */
  datatype LandmarkRecord = LandmarkRecord(
    id: string,
    name: Option<string>,
    name_en: Option<string>,
    description: Option<string>,
    description_en: Option<string>,
    latitude: Option<real>,
    longitude: Option<real>,
    altitude: Option<real>,
    year_built: Option<real>,
    architect: Option<string>,
    category_id: Option<string>,
    wikipedia_url: Option<string>,
    is_active: Option<bool>)

  /** The form's state: one string per input, and the active toggle. */
  datatype FormData = FormData(
    name: string,
    name_en: string,
    description: string,
    description_en: string,
    latitude: string,
    longitude: string,
    altitude: string,
    year_built: string,
    architect: string,
    category_id: string,
    wikipedia_url: string,
    is_active: bool)

  /** The row written to the `landmarks` table; `None` is SQL null. */
  datatype Payload = Payload(
    name: string,
    name_en: Option<string>,
    description: Option<string>,
    description_en: Option<string>,
    latitude: JsNumber,
    longitude: JsNumber,
    altitude: real,
    year_built: Option<JsNumber>,
    architect: Option<string>,
    category_id: Option<string>,
    wikipedia_url: Option<string>,
    is_active: bool)

  /** The request the submit handler sends. */
  datatype SaveRequest = Update(id: string, data: Payload) | Insert(rows: seq<Payload>)

  /** An empty form: altitude "0" and active. */
  const EmptyForm: FormData := FormData("", "", "", "", "", "", "0", "", "", "", "", true)

  /** JavaScript `value || fallback` for an optional string: the fallback for null, undefined and "". */
  function OrElse(value: Option<string>, fallback: string): string
  {
    if value.Some? && value.value != "" then value.value else fallback
  }

  /** JavaScript `value?.toString()` for an optional number. */
  function NumberText(value: Option<real>, js: JsRuntime): Option<string>
  {
    if value.Some? then Some(js.numberToString(value.value)) else None
  }

  /** JavaScript `value || null` for a string: null exactly for "". */
  function NullIfEmpty(s: string): Option<string>
  {
    if s == "" then None else Some(s)
  }

  /** A text input filled from an optional column: its value, or "" when it is missing. */
  predicate FilledFrom(field: string, value: Option<string>)
  {
    field == if value.Some? then value.value else ""
  }

  /**
   * A number input filled from an optional column: the number as JavaScript
   * prints it, or `fallback` when the column is missing or prints as "".
   */
  predicate PrintedOr(field: string, value: Option<real>, fallback: string, js: JsRuntime)
  {
    if value.Some? && js.numberToString(value.value) != "" then field == js.numberToString(value.value)
    else field == fallback
  }

  /**
   * The form filled from a record (the effect run when the edited landmark
   * changes): missing texts become "", a missing altitude "0", a missing
   * active flag `true`; without a record the form is left as it is.
   */
  function FormFromRecord(landmark: Option<LandmarkRecord>, current: FormData, js: JsRuntime): (f: FormData)
    ensures landmark.None? ==> f == current
    ensures landmark.Some? ==>
      var rec := landmark.value;
      && FilledFrom(f.name, rec.name)
      && FilledFrom(f.name_en, rec.name_en)
      && FilledFrom(f.description, rec.description)
      && FilledFrom(f.description_en, rec.description_en)
      && FilledFrom(f.architect, rec.architect)
      && FilledFrom(f.category_id, rec.category_id)
      && FilledFrom(f.wikipedia_url, rec.wikipedia_url)
      && PrintedOr(f.latitude, rec.latitude, "", js)
      && PrintedOr(f.longitude, rec.longitude, "", js)
      && PrintedOr(f.altitude, rec.altitude, "0", js)
      && PrintedOr(f.year_built, rec.year_built, "", js)
      && f.is_active == (rec.is_active != Some(false))
  {
    match landmark
    case None => current
    case Some(rec) =>
      FormData(
        OrElse(rec.name, ""),
        OrElse(rec.name_en, ""),
        OrElse(rec.description, ""),
        OrElse(rec.description_en, ""),
        OrElse(NumberText(rec.latitude, js), ""),
        OrElse(NumberText(rec.longitude, js), ""),
        OrElse(NumberText(rec.altitude, js), "0"),
        OrElse(NumberText(rec.year_built, js), ""),
        OrElse(rec.architect, ""),
        OrElse(rec.category_id, ""),
        OrElse(rec.wikipedia_url, ""),
        if rec.is_active.Some? then rec.is_active.value else true)
  }

  /** The same text field, as the payload carries it: null exactly when the field is empty. */
  predicate NullWhenEmpty(field: string, value: Option<string>)
  {
    (value.None? <==> field == "") && (value.Some? ==> value.value == field)
  }

  /**
   * The row for the submitted form: the name and the active flag verbatim;
   * every optional text null when empty; the altitude 0 when it does not
   * parse or parses to 0; the year of construction null when empty.
   */
  function BuildPayload(form: FormData, js: JsRuntime): (p: Payload)
    ensures p.name == form.name && p.is_active == form.is_active
    ensures NullWhenEmpty(form.name_en, p.name_en)
    ensures NullWhenEmpty(form.description, p.description)
    ensures NullWhenEmpty(form.description_en, p.description_en)
    ensures NullWhenEmpty(form.architect, p.architect)
    ensures NullWhenEmpty(form.category_id, p.category_id)
    ensures NullWhenEmpty(form.wikipedia_url, p.wikipedia_url)
    ensures p.latitude == js.parseFloat(form.latitude) && p.longitude == js.parseFloat(form.longitude)
    ensures p.altitude == 0.0 <==> js.parseFloat(form.altitude) in {NaN, Num(0.0)}
    ensures js.parseFloat(form.altitude).Num? ==> p.altitude == js.parseFloat(form.altitude).value
    ensures p.year_built.None? <==> form.year_built == ""
    ensures p.year_built.Some? ==> p.year_built.value == js.parseInt(form.year_built)
  {
    var altitude := js.parseFloat(form.altitude);
    Payload(
      form.name,
      NullIfEmpty(form.name_en),
      NullIfEmpty(form.description),
      NullIfEmpty(form.description_en),
      js.parseFloat(form.latitude),
      js.parseFloat(form.longitude),
      if altitude.Num? && altitude.value != 0.0 then altitude.value else 0.0,
      if form.year_built != "" then Some(js.parseInt(form.year_built)) else None,
      NullIfEmpty(form.architect),
      NullIfEmpty(form.category_id),
      NullIfEmpty(form.wikipedia_url),
      form.is_active)
  }

  /** Editing an existing landmark updates the row with its id; a new one is inserted as exactly one row. */
  function SaveRequestFor(landmark: Option<LandmarkRecord>, form: FormData, js: JsRuntime): (r: SaveRequest)
    ensures r.Update? <==> landmark.Some?
    ensures r.Update? ==> r.id == landmark.value.id && r.data == BuildPayload(form, js)
    ensures r.Insert? ==> r.rows == [BuildPayload(form, js)]
  {
    var data := BuildPayload(form, js);
    if landmark.Some? then Update(landmark.value.id, data) else Insert([data])
  }

  /** The active toggle: flips `is_active` and nothing else. */
  function ToggleActive(form: FormData): (f: FormData)
    ensures f.is_active == !form.is_active
    ensures f.(is_active := form.is_active) == form
  {
    form.(is_active := !form.is_active)
  }

  /**
   * A new form submitted untouched is inserted as one active row with an
   * empty name, altitude 0, and every optional column null.
   */
  lemma UntouchedNewFormInserted(js: JsRuntime)
    requires js.parseFloat("0") == Num(0.0)
    ensures FormFromRecord(None, EmptyForm, js) == EmptyForm
    ensures var r := SaveRequestFor(None, EmptyForm, js);
      && r.Insert? && |r.rows| == 1
      && var p := r.rows[0];
      && p.name == "" && p.is_active && p.altitude == 0.0 && p.year_built.None?
      && p.name_en.None? && p.description.None? && p.description_en.None?
      && p.architect.None? && p.category_id.None? && p.wikipedia_url.None?
  {
  }

  /**
   * Round trip: every optional text of a record comes back unchanged in the
   * payload when it is non-empty, and as null when it is missing or empty.
   */
  lemma OptionalTextRoundTrip(rec: LandmarkRecord, current: FormData, js: JsRuntime)
    ensures var p := BuildPayload(FormFromRecord(Some(rec), current, js), js);
      && p.name_en == NonEmpty(rec.name_en)
      && p.description == NonEmpty(rec.description)
      && p.description_en == NonEmpty(rec.description_en)
      && p.architect == NonEmpty(rec.architect)
      && p.category_id == NonEmpty(rec.category_id)
      && p.wikipedia_url == NonEmpty(rec.wikipedia_url)
      && p.name == (if rec.name.Some? then rec.name.value else "")
  {
  }

  /** The optional string with "" read as absent. */
  function NonEmpty(value: Option<string>): Option<string>
  {
    if value.Some? && value.value != "" then value else None
  }

  /**
   * Round trip for the altitude: a non-zero altitude that JavaScript prints
   * and parses back faithfully survives; a missing one is stored as 0.
   */
  lemma AltitudeRoundTrip(rec: LandmarkRecord, current: FormData, js: JsRuntime)
    requires rec.altitude.Some? ==>
      js.numberToString(rec.altitude.value) != "" && js.parseFloat(js.numberToString(rec.altitude.value)) == Num(rec.altitude.value)
    requires js.parseFloat("0") == Num(0.0)
    ensures BuildPayload(FormFromRecord(Some(rec), current, js), js).altitude
         == if rec.altitude.Some? then rec.altitude.value else 0.0
  {
  }

  /** The active flag survives the round trip, and a record without one is saved as active. */
  lemma ActiveFlagRoundTrip(rec: LandmarkRecord, current: FormData, js: JsRuntime)
    ensures BuildPayload(FormFromRecord(Some(rec), current, js), js).is_active
         == if rec.is_active.Some? then rec.is_active.value else true
  {
  }
}

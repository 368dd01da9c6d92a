/**
 * The motor catalogue page's client-side form check (`validateForm`): three
 * fields (name, type, value) checked in order, each yielding at most one
 * message, followed by a case-insensitive duplicate-name check over the
 * motors already loaded that overrides any earlier name message. The form
 * may be editing an existing motor, whose own record never counts as a
 * duplicate.
 */
module MotorPage {
  import opened Optional
  import opened JsValues
  import opened Text

  /** A catalogue record as the page receives it (`type` is `motorType` here). */
  datatype Motor = Motor(id: int, name: string, motorType: string, nilai: real)

  /** At most one message per field. */
  datatype FormErrors = FormErrors(name: Option<string>, motorType: Option<string>, nilai: Option<string>)

  /** The value field's text: empty, or some text together with what `Number(...)` makes of it. */
  datatype NilaiField = Empty | Entered(num: Numeric)

  const NameRequired := "Nama motor harus diisi"
  const NameTooShort := "Nama motor minimal 2 karakter"
  const NameTaken := "Nama motor sudah ada"
  const TypeRequired := "Tipe motor harus diisi"
  const TypeTooShort := "Tipe motor minimal 2 karakter"
  const NilaiNotPositive := "Nilai harus lebih dari 0"
  const NilaiTooLarge := "Nilai terlalu besar"

  /** The largest value the form accepts. */
  const MaxNilai: real := 1000000000.0

  /** The "required, at least two characters after trimming" rule shared by name and type. */
  function TextFieldError(text: string, required: string, tooShort: string): (e: Option<string>)
    requires required != tooShort
    ensures e == Some(required) <==> AllSpace(text)
    ensures e == Some(tooShort) <==> |Trim(text)| == 1
    ensures e == None <==> |Trim(text)| >= 2
  {
    var trimmed := Trim(text);
    if trimmed == [] then Some(required)
    else if |trimmed| < 2 then Some(tooShort)
    else None
  }

  /** Whether `m` is a different motor whose lower-cased name is `key`. */
  predicate Clashes(m: Motor, key: string, editing: Option<Motor>)
  {
    ToLower(m.name) == key && (editing.None? || m.id != editing.value.id)
  }

  /** `motors.some(...)`: some listed motor other than the one being edited already has the name. */
  function AnyClash(motors: seq<Motor>, key: string, editing: Option<Motor>): (b: bool)
    ensures b <==> exists i :: 0 <= i < |motors| && Clashes(motors[i], key, editing)
  {
    if motors == [] then false
    else Clashes(motors[0], key, editing) || AnyClash(motors[1..], key, editing)
  }

  /** The duplicate check: the stored name is lower-cased but not trimmed, the input is both. */
  predicate IsDuplicate(name: string, motors: seq<Motor>, editing: Option<Motor>)
  {
    AnyClash(motors, ToLower(Trim(name)), editing)
  }

  /** The name's message: a duplicate overrides the blank and too-short messages. */
  function NameError(name: string, motors: seq<Motor>, editing: Option<Motor>): (e: Option<string>)
    ensures e == Some(NameTaken) <==> IsDuplicate(name, motors, editing)
    ensures e == Some(NameRequired) <==> !IsDuplicate(name, motors, editing) && AllSpace(name)
    ensures e == Some(NameTooShort) <==> !IsDuplicate(name, motors, editing) && |Trim(name)| == 1
    ensures e == None <==> !IsDuplicate(name, motors, editing) && |Trim(name)| >= 2
  {
    if IsDuplicate(name, motors, editing) then Some(NameTaken)
    else TextFieldError(name, NameRequired, NameTooShort)
  }

  /** The value's message: empty or not above 0, then above the maximum; NaN gets none. */
  function NilaiError(nilai: NilaiField): (e: Option<string>)
    ensures e == Some(NilaiNotPositive) <==> nilai.Empty? || AtMost(nilai.num, 0.0)
    ensures e == Some(NilaiTooLarge) <==> nilai.Entered? && Above(nilai.num, MaxNilai)
    ensures e == None <==>
              nilai.Entered? && (nilai.num == NaN || (nilai.num.Finite? && 0.0 < nilai.num.x <= MaxNilai))
  {
    if nilai.Empty? || AtMost(nilai.num, 0.0) then Some(NilaiNotPositive)
    else if Above(nilai.num, MaxNilai) then Some(NilaiTooLarge)
    else None
  }

  /**
   * `validateForm()`: the error record it stores, and whether the form may be
   * submitted (exactly when no field has a message). Each field's message
   * depends on that field's input alone (and, for the name, on the list).
   */
  function ValidateForm(name: string, motorType: string, nilai: NilaiField,
                        motors: seq<Motor>, editing: Option<Motor>): (r: (FormErrors, bool))
    ensures r.0.name == Some(NameTaken) <==> IsDuplicate(name, motors, editing)
    ensures r.0.name == Some(NameRequired) <==> !IsDuplicate(name, motors, editing) && AllSpace(name)
    ensures r.0.name == Some(NameTooShort) <==> !IsDuplicate(name, motors, editing) && |Trim(name)| == 1
    ensures r.0.name == None <==> !IsDuplicate(name, motors, editing) && |Trim(name)| >= 2
    ensures r.0.motorType == Some(TypeRequired) <==> AllSpace(motorType)
    ensures r.0.motorType == Some(TypeTooShort) <==> |Trim(motorType)| == 1
    ensures r.0.motorType == None <==> |Trim(motorType)| >= 2
    ensures r.0.nilai == Some(NilaiNotPositive) <==> nilai.Empty? || AtMost(nilai.num, 0.0)
    ensures r.0.nilai == Some(NilaiTooLarge) <==> nilai.Entered? && Above(nilai.num, MaxNilai)
    ensures r.0.nilai == None <==>
              nilai.Entered? && (nilai.num == NaN || (nilai.num.Finite? && 0.0 < nilai.num.x <= MaxNilai))
    ensures r.1 <==> r.0 == FormErrors(None, None, None)
  {
    var errors := FormErrors(
      NameError(name, motors, editing),
      TextFieldError(motorType, TypeRequired, TypeTooShort),
      NilaiError(nilai));
    (errors, errors.name.None? && errors.motorType.None? && errors.nilai.None?)
  }

  /** Names in the list are pairwise distinct ignoring case, as the form tries to keep them. */
  predicate NamesDistinctIgnoringCase(motors: seq<Motor>)
  {
    forall i, j :: 0 <= i < j < |motors| ==> ToLower(motors[i].name) != ToLower(motors[j].name)
  }

  /**
   * Editing motor `m` and leaving its (already trimmed) name as it is never
   * reports a duplicate, provided the listed names are distinct ignoring case.
   */
  lemma EditingKeepsOwnName(motors: seq<Motor>, m: Motor)
    requires m in motors && NamesDistinctIgnoringCase(motors)
    requires Trim(m.name) == m.name
    ensures !IsDuplicate(m.name, motors, Some(m))
    ensures ValidateForm(m.name, m.motorType, Entered(Finite(m.nilai)), motors, Some(m)).0.name
            == TextFieldError(m.name, NameRequired, NameTooShort)
  {
  }

  /** Adding a motor whose name clashes with a listed one, ignoring case and surrounding blanks, is refused. */
  lemma DuplicateIgnoresCaseAndBlanks(motors: seq<Motor>, name: string, motorType: string, nilai: NilaiField, i: int)
    requires 0 <= i < |motors| && ToLower(motors[i].name) == ToLower(Trim(name))
    ensures !ValidateForm(name, motorType, nilai, motors, None).1
    ensures ValidateForm(name, motorType, nilai, motors, None).0.name == Some(NameTaken)
  {
  }

  /** A value the engine cannot read as a number (NaN) passes the value rule unreported. */
  lemma NonNumericValuePasses(name: string, motorType: string, motors: seq<Motor>, editing: Option<Motor>)
    ensures ValidateForm(name, motorType, Entered(NaN), motors, editing).0.nilai == None
  {
  }

  /** The value rule's bounds: the maximum itself is accepted, anything above it or at most 0 is not. */
  lemma NilaiBounds(name: string, motorType: string, motors: seq<Motor>, editing: Option<Motor>, x: real)
    ensures ValidateForm(name, motorType, Entered(Finite(MaxNilai)), motors, editing).0.nilai == None
    ensures x > MaxNilai ==>
              ValidateForm(name, motorType, Entered(Finite(x)), motors, editing).0.nilai == Some(NilaiTooLarge)
    ensures 0.0 < x <= MaxNilai ==>
              ValidateForm(name, motorType, Entered(Finite(x)), motors, editing).0.nilai == None
    ensures x <= 0.0 ==>
              ValidateForm(name, motorType, Entered(Finite(x)), motors, editing).0.nilai == Some(NilaiNotPositive)
    ensures ValidateForm(name, motorType, Empty, motors, editing).0.nilai == Some(NilaiNotPositive)
  {
  }
}

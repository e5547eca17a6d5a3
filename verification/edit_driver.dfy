/** src/components/EditDriverModal.jsx: seeding the edit form and the
    required-fields check of its submit. */
module EditDriver {
  import opened Model
  import opened Seqs
  import opened Strings
  import Registration

  /** The form's contents for the driver being edited: none without a
      driver, otherwise the driver with its service status defaulted. */
  function SeedForm(driver: Option<Driver>): (form: Option<Driver>)
    ensures form.Some? <==> driver.Some?
    ensures driver.Some? ==>
      form.value.serviceStatus != "" && form.value.(serviceStatus := driver.value.serviceStatus) == driver.value
    ensures driver.Some? && driver.value.serviceStatus != "" ==> form == driver
    ensures driver.Some? && driver.value.serviceStatus == "" ==> form.value.serviceStatus == Available
  {
    match driver
    case Some(d) => Some(WithDefaultStatus(d))
    case None => None
  }

  /** `requiredFields`, in the order the message lists them. */
  const RequiredFields: seq<string> := ["fullName", "phone", "vehiclePlate", "transporter", "responsibleSeller"]

  /** The form's value for a required field, by the field's name. */
  function FieldValue(f: Driver, field: string): string {
    match field
    case "fullName" => f.fullName
    case "phone" => f.phone
    case "vehiclePlate" => f.vehiclePlate
    case "transporter" => f.transporter
    case "responsibleSeller" => f.responsibleSeller
    case _ => ""
  }

  /** The required fields left empty, in the order above. Values are not
      trimmed. */
  function MissingFields(f: Driver): (missing: seq<string>)
    ensures forall field :: field in missing <==> field in RequiredFields && FieldValue(f, field) == ""
    ensures IsSubsequence(missing, RequiredFields)
  {
    Filter(RequiredFields, (field: string) => FieldValue(f, field) == "")
  }

  /** Outcome of the edit form's submit. */
  datatype EditOutcome = NoForm | Missing(fields: seq<string>) | Save(driver: Driver)

  /** `handleSubmit`: nothing without form data; the missing fields when
      there are any; otherwise `onSave` with the form data as it is. */
  function EditSubmit(form: Option<Driver>): (o: EditOutcome)
    ensures form.None? <==> o == NoForm
    ensures o.Missing? ==> form.Some? && o.fields == MissingFields(form.value) && o.fields != []
    ensures o.Save? <==> form.Some? && MissingFields(form.value) == []
    ensures o.Save? ==> o.driver == form.value
  {
    match form
    case None => NoForm
    case Some(f) =>
      var missing := MissingFields(f);
      if |missing| > 0 then Missing(missing) else Save(f)
  }

  /** Each of the five required fields holds something. */
  predicate RequiredFilled(f: Driver) {
    f.fullName != "" && f.phone != "" && f.vehiclePlate != "" && f.transporter != "" && f.responsibleSeller != ""
  }

  /** The edit is saved exactly when the required fields are filled. */
  lemma SavedIffRequiredFilled(f: Driver)
    ensures EditSubmit(Some(f)).Save? <==> RequiredFilled(f)
  {
    if RequiredFilled(f) {
      forall i | 0 <= i < |RequiredFields| ensures FieldValue(f, RequiredFields[i]) != "" {
      }
      FilterKeepsNone(RequiredFields, (field: string) => FieldValue(f, field) == "");
    } else {
      MissingListsEmptyField(f);
    }
  }

  /** A required field left empty is reported missing. */
  lemma MissingListsEmptyField(f: Driver)
    requires !RequiredFilled(f)
    ensures MissingFields(f) != []
  {
    var k := if f.fullName == "" then 0 else if f.phone == "" then 1 else if f.vehiclePlate == "" then 2
             else if f.transporter == "" then 3 else 4;
    assert FieldValue(f, RequiredFields[k]) == "";
    FilterKeepsAccepted(RequiredFields, (field: string) => FieldValue(f, field) == "", k);
  }

  /** Unlike registration, editing does not trim: a form whose required
      fields are filled, some of them with white space only, is saved here,
      though registration reports each of those white-space values. */
  lemma EditAcceptsWhatRegistrationRejects(f: Driver)
    requires RequiredFilled(f)
    ensures EditSubmit(Some(f)) == Save(f)
    ensures Blank(f.fullName) ==> Registration.FullName in Registration.FieldErrors(f)
    ensures Blank(f.phone) ==> Registration.Phone in Registration.FieldErrors(f)
    ensures Blank(f.vehiclePlate) ==> Registration.VehiclePlate in Registration.FieldErrors(f)
  {
    SavedIffRequiredFilled(f);
  }
}

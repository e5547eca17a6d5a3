/** src/components/DriverRegistrationForm.jsx: field validation and the
    submit that inserts a new driver or replaces the one with the same id. */
module Registration {
  import opened Model
  import opened Strings
  import App

  /** The form fields that can carry a validation error. */
  datatype Field = FullName | Phone | VehiclePlate | Password

  const FullNameRequired := "Nome completo é obrigatório."
  const PhoneRequired := "Telefone é obrigatório."
  const PhoneInvalid := "Telefone inválido (use 10 ou 11 dígitos)."
  const PlateRequired := "Placa do veículo é obrigatória."
  const PasswordInvalid := "Senha deve ter 3 dígitos numéricos."

  /** The form's initial (and post-submit) contents. */
  function EmptyForm(): (f: Driver)
    ensures f.availabilityStatus == "online" && f.serviceStatus == Available
    ensures f.id == "" && f.fullName == "" && f.phone == "" && f.vehiclePlate == "" && f.password == ""
    ensures f.transporter == "" && f.destination == "" && f.dock == "" && f.client == "" && f.responsibleSeller == ""
  {
    Driver("", "", "", "", "", "", "", "", "", "", "online", Available)
  }

  /** The phone rule: once every non-digit is removed, 10 or 11 digits
      remain. */
  predicate PhoneDigitsValid(phone: string) {
    MatchesDigits(StripNonDigits(phone), 10, 11)
  }

  /** The password rule: exactly three digits. */
  predicate PasswordValid(password: string) {
    MatchesDigits(password, 3, 3)
  }

  /** The errors `validateForm` records, field by field. */
  function FieldErrors(f: Driver): (errors: map<Field, string>)
    ensures FullName in errors <==> Blank(f.fullName)
    ensures VehiclePlate in errors <==> Blank(f.vehiclePlate)
    ensures Phone in errors <==> Blank(f.phone) || |StripNonDigits(f.phone)| !in {10, 11}
    ensures Phone in errors ==> errors[Phone] == if Blank(f.phone) then PhoneRequired else PhoneInvalid
    ensures Password in errors <==>
      f.password != "" && !(|f.password| == 3 && forall i :: 0 <= i < 3 ==> IsDigit(f.password[i]))
  {
    PasswordError(f, PlateError(f, PhoneError(f, NameError(f, map[]))))
  }

  /** The four steps of `validateForm`, each adding at most one error. */
  function NameError(f: Driver, e: map<Field, string>): map<Field, string> {
    if Blank(f.fullName) then e[FullName := FullNameRequired] else e
  }

  function PhoneError(f: Driver, e: map<Field, string>): map<Field, string> {
    if Blank(f.phone) then e[Phone := PhoneRequired]
    else if !PhoneDigitsValid(f.phone) then e[Phone := PhoneInvalid]
    else e
  }

  function PlateError(f: Driver, e: map<Field, string>): map<Field, string> {
    if Blank(f.vehiclePlate) then e[VehiclePlate := PlateRequired] else e
  }

  function PasswordError(f: Driver, e: map<Field, string>): map<Field, string> {
    if f.password != "" && !PasswordValid(f.password) then e[Password := PasswordInvalid] else e
  }

  /** A form whose required fields hold something and whose phone and
      password follow their rules has no errors, and vice versa. */
  lemma ValidIff(f: Driver)
    ensures FieldErrors(f) == map[] <==>
      !Blank(f.fullName) && !Blank(f.vehiclePlate) && !Blank(f.phone) && PhoneDigitsValid(f.phone) &&
      (f.password == "" || PasswordValid(f.password))
  {
    var e := FieldErrors(f);
    if e == map[] {
      assert FullName !in e && Phone !in e && VehiclePlate !in e && Password !in e;
    }
  }

  /** The id of a new driver: "driver_" followed by the clock reading. */
  function GeneratedId(now: nat): (id: string)
    ensures "driver_" <= id
  {
    "driver_" + NatToString(now)
  }

  /** The form data with its id, or a generated one when it has none. */
  function WithId(f: Driver, now: nat): (d: Driver)
    ensures d.id != ""
    ensures f.id != "" ==> d == f
    ensures f.id == "" ==> d == f.(id := GeneratedId(now))
  {
    f.(id := OrElse(f.id, GeneratedId(now)))
  }

  /** The list after the submit: the first driver with the same id is
      replaced in place, otherwise the driver is appended. */
  function Upsert(ds: seq<Driver>, d: Driver): (r: seq<Driver>)
    ensures HasId(ds, d.id) ==> |r| == |ds| && r[IndexOfId(ds, d.id)] == d
    ensures !HasId(ds, d.id) ==> r == ds + [d]
    ensures forall j :: 0 <= j < |ds| && j != IndexOfId(ds, d.id) ==> r[j] == ds[j]
  {
    var i := IndexOfId(ds, d.id);
    if i != -1 then ds[i := d] else ds + [d]
  }

  /** Registering into a registry without duplicate ids keeps it so, and
      leaves exactly one driver with the registered id. */
  lemma UpsertKeepsIdsUnique(ds: seq<Driver>, d: Driver)
    requires UniqueIds(ds)
    ensures UniqueIds(Upsert(ds, d))
    ensures HasId(Upsert(ds, d), d.id)
    ensures forall i, j :: (0 <= i < |Upsert(ds, d)| && 0 <= j < |Upsert(ds, d)| &&
                           Upsert(ds, d)[i].id == d.id && Upsert(ds, d)[j].id == d.id) ==> i == j
  {
    var r := Upsert(ds, d);
    if HasId(ds, d.id) {
      var k := IndexOfId(ds, d.id);
      assert forall i :: 0 <= i < |r| ==> r[i].id == ds[i].id;
    } else {
      assert r[|ds|] == d;
    }
  }

  /** Submitting the same driver twice has the effect of submitting it once. */
  lemma UpsertIdempotent(ds: seq<Driver>, d: Driver)
    ensures Upsert(Upsert(ds, d), d) == Upsert(ds, d)
  {
    var r := Upsert(ds, d);
    if HasId(ds, d.id) {
      var k := IndexOfId(ds, d.id);
      assert forall j :: 0 <= j < k ==> r[j].id == ds[j].id;
      assert IndexOfId(r, d.id) == k;
    } else {
      assert forall j :: 0 <= j < |ds| ==> r[j] == ds[j];
      assert r[|ds|] == d;
    }
  }

  /** The registration form's state. */
  class RegistrationForm {
    var formData: Driver
    var errors: map<Field, string>

    constructor ()
      ensures formData == EmptyForm() && errors == map[]
    {
      formData := EmptyForm();
      errors := map[];
    }

    /** `validateForm`: records the errors of the current form and reports
        whether there are none. */
    method ValidateForm() returns (valid: bool)
      modifies this`errors
      ensures errors == FieldErrors(formData)
      ensures valid <==> errors == map[]
    {
      var newErrors: map<Field, string> := map[];
      if Blank(formData.fullName) {
        newErrors := newErrors[FullName := FullNameRequired];
      }
      assert newErrors == NameError(formData, map[]);
      if Blank(formData.phone) {
        newErrors := newErrors[Phone := PhoneRequired];
      } else if !PhoneDigitsValid(formData.phone) {
        newErrors := newErrors[Phone := PhoneInvalid];
      }
      assert newErrors == PhoneError(formData, NameError(formData, map[]));
      if Blank(formData.vehiclePlate) {
        newErrors := newErrors[VehiclePlate := PlateRequired];
      }
      if formData.password != "" && !PasswordValid(formData.password) {
        newErrors := newErrors[Password := PasswordInvalid];
      }
      errors := newErrors;
      valid := |newErrors| == 0;
    }

    /** `handleSubmit`: an invalid form leaves the drivers alone; a valid
        one is stored under its id (or a generated one), logged, and the
        form is reset. */
    method HandleSubmit(st: Storage, now: nat, userRole: string, stamp: Stamp) returns (saved: bool)
      modifies this, st`drivers, st`actionHistory
      ensures saved <==> FieldErrors(old(formData)) == map[]
      ensures !saved ==>
        formData == old(formData) && errors == FieldErrors(old(formData)) &&
        st.drivers == old(st.drivers) && st.actionHistory == old(st.actionHistory)
      ensures saved ==>
        st.drivers == Upsert(old(st.drivers), WithId(old(formData), now)) &&
        formData == EmptyForm() && errors == map[] &&
        st.actionHistory == App.Logged(old(st.actionHistory),
          LogEntry("Cadastrar Motorista", userRole,
                   "Novo motorista " + old(formData).fullName + " cadastrado.", stamp.timestamp, stamp.id))
    {
      saved := ValidateForm();
      if !saved {
        return;
      }
      var newDriver := formData.(id := OrElse(formData.id, GeneratedId(now)));
      var drivers := st.drivers;
      var existing := IndexOfId(drivers, newDriver.id);
      if existing != -1 {
        drivers := drivers[existing := newDriver];
      } else {
        drivers := drivers + [newDriver];
      }
      st.drivers := drivers;
      App.LogAction(st, "Cadastrar Motorista", userRole,
                    App.Plain("Novo motorista " + newDriver.fullName + " cadastrado."), stamp);
      formData := EmptyForm();
      errors := map[];
    }
  }
}

/**
 * Patient records: create, list (with a case-insensitive name search), get,
 * update (only the supplied fields) and delete (cascading to the patient's
 * appointments and their prescriptions). Admins and doctors alike may do
 * all of it.
 */
module Patients {
  import opened Wrappers
  import opened Calendar
  import opened Models
  import opened Rows
  import opened Access
  import opened Store

  datatype NewPatient = NewPatient(
    firstName: string,
    lastName: string,
    dob: Date,
    gender: string,
    phone: string,
    email: Option<string>,
    address: string,
    insuranceId: Option<string>)

  // ---------------------------------------------------------------------
  // Create
  // ---------------------------------------------------------------------

  /** The first check a create request fails, if any. */
  function CreateRejection(who: Principal, req: NewPatient): (r: Option<Error>)
    ensures r.None? <==> IsStaff(who) && ParseGender(req.gender).Some?
    ensures !IsStaff(who) ==> r == Some(Forbidden)
    ensures IsStaff(who) && ParseGender(req.gender).None? ==> r == Some(BadRequest(InvalidGender))
  {
    if !IsStaff(who) then Some(Forbidden)
    else if ParseGender(req.gender).None? then Some(BadRequest(InvalidGender))
    else None
  }

  /** The record a valid create request stores. */
  function Admitted(req: NewPatient, now: DateTime): (p: Patient)
    requires ParseGender(req.gender).Some?
    ensures GenderName(p.gender) == req.gender
  {
    Patient(req.firstName, req.lastName, req.dob, ParseGender(req.gender).value,
            req.phone, req.email, req.address, req.insuranceId, now)
  }

  /** `create_patient`: on success exactly one patient is added, carrying the payload's fields. */
  method CreatePatient(store: ClinicStore, who: Principal, req: NewPatient, now: DateTime) returns (r: Result<Id>)
    requires store.Valid()
    modifies store
    ensures store.Valid()
    ensures var rejection := CreateRejection(who, req);
            && (r.Err? <==> rejection.Some?)
            && (r.Err? ==> r.error == rejection.value)
    ensures r.Err? ==> unchanged(store)
    ensures r.Ok? ==>
      && r.value !in old(store.patients)
      && store.patients == old(store.patients)[r.value := Admitted(req, now)]
    ensures r.Ok? ==>
      && store.users == old(store.users) && store.doctors == old(store.doctors)
      && store.appointments == old(store.appointments) && store.prescriptions == old(store.prescriptions)
      && store.nextAppointmentId == old(store.nextAppointmentId)
      && store.nextPrescriptionId == old(store.nextPrescriptionId)
  {
    var rejection := CreateRejection(who, req);
    if rejection.Some? {
      return Err(rejection.value);
    }
    var id := store.nextPatientId;
    store.patients := store.patients[id := Admitted(req, now)];
    store.nextPatientId := id + 1;
    r := Ok(id);
  }

  // ---------------------------------------------------------------------
  // List and get
  // ---------------------------------------------------------------------

  /** ASCII lower-casing of one character; every other character is left alone. */
  function LowerChar(c: char): (d: char)
    ensures 'A' <= c <= 'Z' ==> 'a' <= d <= 'z'
    ensures !('A' <= c <= 'Z') ==> d == c
  {
    if 'A' <= c <= 'Z' then (c as int + 32) as char else c
  }

  function Folded(s: string): (t: string)
    ensures |t| == |s|
    ensures forall i :: 0 <= i < |s| ==> t[i] == LowerChar(s[i])
  {
    if s == [] then [] else [LowerChar(s[0])] + Folded(s[1..])
  }

  /** `t` occurs in `s` starting at position `i`. */
  predicate OccursAt(s: string, t: string, i: int) {
    0 <= i <= |s| - |t| && s[i..i + |t|] == t
  }

  /** `t` occurs in `s` as a contiguous run. */
  function HasInfix(s: string, t: string): (r: bool)
    ensures r <==> exists i :: OccursAt(s, t, i)
    decreases |s|
  {
    if |t| > |s| then false
    else if s[..|t|] == t then
      assert OccursAt(s, t, 0);
      true
    else
      var found := HasInfix(s[1..], t);
      assert found ==> exists i :: OccursAt(s, t, i) by {
        if found {
          var i :| OccursAt(s[1..], t, i);
          assert s[i + 1..i + 1 + |t|] == s[1..][i..i + |t|];
          assert OccursAt(s, t, i + 1);
        }
      }
      assert (exists i :: OccursAt(s, t, i)) ==> found by {
        if exists i :: OccursAt(s, t, i) {
          var i :| OccursAt(s, t, i);
          assert i != 0;
          assert s[1..][i - 1..i - 1 + |t|] == s[i..i + |t|];
          assert OccursAt(s[1..], t, i - 1);
        }
      }
      found
  }

  /** `icontains`: `name` occurs in the first or the last name, ignoring ASCII case. */
  predicate NameMatches(p: Patient, name: string) {
    HasInfix(Folded(p.firstName), Folded(name)) || HasInfix(Folded(p.lastName), Folded(name))
  }

  /**
   * `list_patients`: with a non-empty name, exactly the patients whose first
   * or last name contains it; otherwise every patient; ascending by id.
   */
  function ListPatients(patients: map<Id, Patient>, who: Principal, name: Option<string>): (r: Result<seq<Id>>)
    ensures r.Err? <==> !IsStaff(who)
    ensures r.Err? ==> r.error == Forbidden
    ensures r.Ok? ==> Increasing(r.value)
    ensures r.Ok? ==> forall id :: id in r.value <==>
      id in patients && (TextSupplied(name) ==> NameMatches(patients[id], name.value))
  {
    if !IsStaff(who) then Err(Forbidden)
    else if TextSupplied(name) then
      var keep := (id: Id) => id in patients && NameMatches(patients[id], name.value);
      SelectIncreasing(SortedIds(patients.Keys), keep);
      Ok(Select(SortedIds(patients.Keys), keep))
    else Ok(SortedIds(patients.Keys))
  }

  /** The search ignores ASCII case: searching "SMITH" finds a patient named "Smith". */
  lemma SearchIgnoresCase(p: Patient)
    requires p.lastName == "Smith"
    ensures NameMatches(p, "SMITH")
  {
    assert Folded(p.lastName)[0..|Folded("SMITH")|] == Folded("SMITH");
  }

  /** Folding letter case keeps every occurrence where it was. */
  lemma FoldedOccurs(s: string, t: string, i: int)
    requires OccursAt(s, t, i)
    ensures OccursAt(Folded(s), Folded(t), i)
  {
    var fs, ft := Folded(s), Folded(t);
    forall k | 0 <= k < |t| ensures fs[i..i + |t|][k] == ft[k] {
      assert s[i..i + |t|][k] == t[k];
    }
  }

  /**
   * The search ignores case everywhere: a patient one of whose names
   * contains `t` is found by every spelling of `t` that differs from it only
   * in the case of its letters.
   */
  lemma SearchIgnoresCaseEverywhere(p: Patient, t: string, i: int, name: string)
    requires OccursAt(p.firstName, t, i) || OccursAt(p.lastName, t, i)
    requires Folded(name) == Folded(t)
    ensures NameMatches(p, name)
  {
    if OccursAt(p.firstName, t, i) {
      FoldedOccurs(p.firstName, t, i);
    } else {
      FoldedOccurs(p.lastName, t, i);
    }
  }

  /** An empty name is no filter at all. */
  lemma EmptyNameListsAll(patients: map<Id, Patient>, who: Principal)
    requires IsStaff(who)
    ensures ListPatients(patients, who, Some("")) == ListPatients(patients, who, None)
  {
  }

  /** `get_patient`: the patient, for any staff caller. */
  function GetPatient(patients: map<Id, Patient>, who: Principal, id: Id): (r: Result<Patient>)
    ensures r.Ok? <==> IsStaff(who) && id in patients
    ensures r.Ok? ==> r.value == patients[id]
    ensures !IsStaff(who) ==> r == Err(Forbidden)
    ensures IsStaff(who) && id !in patients ==> r == Err(NotFound)
  {
    if !IsStaff(who) then Err(Forbidden)
    else if id !in patients then Err(NotFound)
    else Ok(patients[id])
  }

  // ---------------------------------------------------------------------
  // Update
  // ---------------------------------------------------------------------

  /** The fields an update payload may set. */
  datatype PatientField =
    | FirstNameField | LastNameField | DobField | GenderField
    | PhoneField | EmailField | AddressField | InsuranceIdField

  /** A payload value: text, a date, or an explicit null. */
  datatype FieldValue = Text(text: string) | Day(date: Date) | Null

  /**
   * The value has the type the field declares: a date for the birth date,
   * text or null for the two nullable fields, text elsewhere. The gender
   * value is checked by the update itself.
   */
  predicate Fits(f: PatientField, v: FieldValue) {
    match f
    case DobField => v.Day?
    case EmailField => v.Text? || v.Null?
    case InsuranceIdField => v.Text? || v.Null?
    case GenderField => true
    case _ => v.Text?
  }

  predicate WellTyped(data: map<PatientField, FieldValue>) {
    forall f :: f in data ==> Fits(f, data[f])
  }

  /** The gender value, if supplied, names one of the declared choices. */
  predicate GenderAcceptable(data: map<PatientField, FieldValue>) {
    GenderField in data ==> data[GenderField].Text? && ParseGender(data[GenderField].text).Some?
  }

  /** The field's current value, as a payload would give it. */
  function FieldOf(p: Patient, f: PatientField): FieldValue {
    match f
    case FirstNameField => Text(p.firstName)
    case LastNameField => Text(p.lastName)
    case DobField => Day(p.dob)
    case GenderField => Text(GenderName(p.gender))
    case PhoneField => Text(p.phone)
    case EmailField => if p.email.Some? then Text(p.email.value) else Null
    case AddressField => Text(p.address)
    case InsuranceIdField => if p.insuranceId.Some? then Text(p.insuranceId.value) else Null
  }

  function OptionalText(v: FieldValue): Option<string> {
    if v.Text? then Some(v.text) else None
  }

  /** `setattr(patient, f, v)`: the field set to the value and every other field untouched. */
  function Assigned(p: Patient, f: PatientField, v: FieldValue): (q: Patient)
    requires Fits(f, v) && (f == GenderField ==> v.Text? && ParseGender(v.text).Some?)
    ensures FieldOf(q, f) == v
    ensures forall g :: g != f ==> FieldOf(q, g) == FieldOf(p, g)
    ensures q.createdAt == p.createdAt
  {
    match f
    case FirstNameField => p.(firstName := v.text)
    case LastNameField => p.(lastName := v.text)
    case DobField => p.(dob := v.date)
    case GenderField => p.(gender := ParseGender(v.text).value)
    case PhoneField => p.(phone := v.text)
    case EmailField => p.(email := OptionalText(v))
    case AddressField => p.(address := v.text)
    case InsuranceIdField => p.(insuranceId := OptionalText(v))
  }

  /** The patient with the fields in `done` taken from the payload and the rest as they were. */
  ghost predicate PatchedOn(q: Patient, p: Patient, data: map<PatientField, FieldValue>, done: set<PatientField>)
    requires done <= data.Keys
  {
    && q.createdAt == p.createdAt
    && forall f :: FieldOf(q, f) == if f in done then data[f] else FieldOf(p, f)
  }

  /** Two patients that agree on every field and on the creation time are the same record. */
  lemma {:induction false} FieldsDetermine(p: Patient, q: Patient)
    requires forall f :: FieldOf(p, f) == FieldOf(q, f)
    requires p.createdAt == q.createdAt
    ensures p == q
  {
    assert FieldOf(p, FirstNameField) == FieldOf(q, FirstNameField);
    assert FieldOf(p, LastNameField) == FieldOf(q, LastNameField);
    assert FieldOf(p, DobField) == FieldOf(q, DobField);
    assert FieldOf(p, GenderField) == FieldOf(q, GenderField);
    assert FieldOf(p, PhoneField) == FieldOf(q, PhoneField);
    assert FieldOf(p, EmailField) == FieldOf(q, EmailField);
    assert FieldOf(p, AddressField) == FieldOf(q, AddressField);
    assert FieldOf(p, InsuranceIdField) == FieldOf(q, InsuranceIdField);
    NamesDetermineGender(p.gender, q.gender);
  }

  lemma NamesDetermineGender(g: Gender, h: Gender)
    requires GenderName(g) == GenderName(h)
    ensures g == h
  {
  }

  /**
   * The `setattr` loop of `update_patient`: every supplied field takes the
   * payload's value and every other field keeps its own.
   */
  method ApplyFields(p: Patient, data: map<PatientField, FieldValue>) returns (q: Patient)
    requires WellTyped(data) && GenderAcceptable(data)
    ensures q.createdAt == p.createdAt
    ensures forall f :: FieldOf(q, f) == if f in data then data[f] else FieldOf(p, f)
  {
    q := p;
    var todo := data.Keys;
    while todo != {}
      invariant todo <= data.Keys
      invariant PatchedOn(q, p, data, data.Keys - todo)
      decreases |todo|
    {
      var f :| f in todo;
      q := Assigned(q, f, data[f]);
      todo := todo - {f};
    }
  }

  /** The first check an update request fails, if any. */
  function UpdateRejection(patients: map<Id, Patient>, who: Principal, id: Id, data: map<PatientField, FieldValue>): (r: Option<Error>)
    ensures r.None? <==> IsStaff(who) && id in patients && GenderAcceptable(data)
    ensures !IsStaff(who) ==> r == Some(Forbidden)
    ensures IsStaff(who) && id !in patients ==> r == Some(NotFound)
    ensures IsStaff(who) && id in patients && !GenderAcceptable(data) ==> r == Some(BadRequest(InvalidGender))
  {
    if !IsStaff(who) then Some(Forbidden)
    else if id !in patients then Some(NotFound)
    else if !GenderAcceptable(data) then Some(BadRequest(InvalidGender))
    else None
  }

  /**
   * `update_patient`: on any error nothing changes; on success only this
   * patient changes, and only in the supplied fields.
   */
  method UpdatePatient(store: ClinicStore, who: Principal, id: Id, data: map<PatientField, FieldValue>)
    returns (r: Result<Patient>)
    requires store.Valid()
    requires WellTyped(data)
    modifies store
    ensures store.Valid()
    ensures var rejection := UpdateRejection(old(store.patients), who, id, data);
            && (r.Err? <==> rejection.Some?)
            && (r.Err? ==> r.error == rejection.value)
    ensures r.Err? ==> unchanged(store)
    ensures r.Ok? ==>
      && id in old(store.patients)
      && store.patients == old(store.patients)[id := r.value]
      && r.value.createdAt == old(store.patients)[id].createdAt
      && forall f :: FieldOf(r.value, f) == if f in data then data[f] else FieldOf(old(store.patients)[id], f)
    ensures r.Ok? ==>
      && store.users == old(store.users) && store.doctors == old(store.doctors)
      && store.appointments == old(store.appointments) && store.prescriptions == old(store.prescriptions)
      && store.nextPatientId == old(store.nextPatientId)
      && store.nextAppointmentId == old(store.nextAppointmentId)
      && store.nextPrescriptionId == old(store.nextPrescriptionId)
  {
    var rejection := UpdateRejection(store.patients, who, id, data);
    if rejection.Some? {
      return Err(rejection.value);
    }
    var q := ApplyFields(store.patients[id], data);
    store.patients := store.patients[id := q];
    r := Ok(q);
  }

  /**
   * The update's result is determined by the record and the payload: an
   * update whose payload repeats the record's own values (an empty payload
   * among them) leaves the record exactly as it was.
   */
  lemma UpdateWithOwnValuesIsNoOp(p: Patient, q: Patient, data: map<PatientField, FieldValue>)
    requires forall f :: f in data ==> data[f] == FieldOf(p, f)
    requires q.createdAt == p.createdAt
    requires forall f :: FieldOf(q, f) == if f in data then data[f] else FieldOf(p, f)
    ensures q == p
  {
    FieldsDetermine(p, q);
  }

  // ---------------------------------------------------------------------
  // Delete
  // ---------------------------------------------------------------------

  /** The first check a delete request fails, if any. */
  function DeleteRejection(patients: map<Id, Patient>, who: Principal, id: Id): (r: Option<Error>)
    ensures r.None? <==> IsStaff(who) && id in patients
    ensures !IsStaff(who) ==> r == Some(Forbidden)
    ensures IsStaff(who) && id !in patients ==> r == Some(NotFound)
  {
    if !IsStaff(who) then Some(Forbidden)
    else if id !in patients then Some(NotFound)
    else None
  }

  /**
   * `delete_patient`: the patient goes, and with them their appointments
   * and those appointments' prescriptions; nothing else goes.
   */
  method DeletePatient(store: ClinicStore, who: Principal, id: Id) returns (r: Result<()>)
    requires store.Valid()
    modifies store
    ensures store.Valid()
    ensures var rejection := DeleteRejection(old(store.patients), who, id);
            && (r.Err? <==> rejection.Some?)
            && (r.Err? ==> r.error == rejection.value)
    ensures r.Err? ==> unchanged(store)
    ensures r.Ok? ==>
      && store.patients == old(store.patients) - {id}
      && store.appointments == AppointmentsWithout(old(store.appointments), (a: Appointment) => a.patientId == id)
      && store.prescriptions == PrescriptionsOf(store.appointments, old(store.prescriptions))
      && (forall a :: a in store.appointments ==> store.appointments[a].patientId != id)
    ensures r.Ok? ==>
      && store.users == old(store.users) && store.doctors == old(store.doctors)
      && store.nextPatientId == old(store.nextPatientId)
      && store.nextAppointmentId == old(store.nextAppointmentId)
      && store.nextPrescriptionId == old(store.nextPrescriptionId)
  {
    var rejection := DeleteRejection(store.patients, who, id);
    if rejection.Some? {
      return Err(rejection.value);
    }
    PatientCascadeKeepsIntegrity(store.patients, store.doctors, store.appointments, store.prescriptions, id);
    var appointments := AppointmentsWithout(store.appointments, (a: Appointment) => a.patientId == id);
    store.prescriptions := PrescriptionsOf(appointments, store.prescriptions);
    store.appointments := appointments;
    store.patients := store.patients - {id};
    r := Ok(());
  }
}

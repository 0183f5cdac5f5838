/**
 * Prescriptions: a doctor writes one for their own completed appointment;
 * staff list and read them, a doctor only those of their own appointments.
 */
module Prescriptions {
  import opened Wrappers
  import opened Calendar
  import opened Models
  import opened Rows
  import opened Access
  import opened Store

  datatype NewPrescription = NewPrescription(
    appointmentId: Id,
    medication: string,
    dosage: string,
    instructions: string,
    dateIssued: Date,
    cost: Option<Cents>)

  /** The list endpoint's query parameters. */
  datatype PrescriptionFilters = PrescriptionFilters(
    patientId: Option<Id>,
    appointmentId: Option<Id>,
    doctorId: Option<Id>)

  // ---------------------------------------------------------------------
  // Create
  // ---------------------------------------------------------------------

  /** The checks before the 400-class ones: a doctor, an existing appointment, and theirs. */
  predicate MayPrescribe(appointments: map<Id, Appointment>, who: Principal, req: NewPrescription) {
    who.DoctorUser? && req.appointmentId in appointments && appointments[req.appointmentId].doctorId == who.doctorId
  }

  /** The first check a create request fails, if any. */
  function PrescriptionRejection(appointments: map<Id, Appointment>, who: Principal, req: NewPrescription): (r: Option<Error>)
    ensures r.None? <==>
      && MayPrescribe(appointments, who, req)
      && appointments[req.appointmentId].status == Completed
      && !DateBefore(req.dateIssued, appointments[req.appointmentId].dateTime.date)
      && (req.cost.Some? ==> req.cost.value >= 0)
    ensures !who.DoctorUser? ==> r == Some(Forbidden)
    ensures r == Some(NotFound) <==> who.DoctorUser? && req.appointmentId !in appointments
    ensures r == Some(BadRequest(NotCompleted)) <==>
      MayPrescribe(appointments, who, req) && appointments[req.appointmentId].status != Completed
    ensures r == Some(BadRequest(IssuedBeforeAppointment)) <==>
      && MayPrescribe(appointments, who, req) && appointments[req.appointmentId].status == Completed
      && DateBefore(req.dateIssued, appointments[req.appointmentId].dateTime.date)
    ensures r == Some(BadRequest(NegativeCost)) <==>
      && MayPrescribe(appointments, who, req) && appointments[req.appointmentId].status == Completed
      && !DateBefore(req.dateIssued, appointments[req.appointmentId].dateTime.date)
      && req.cost.Some? && req.cost.value < 0
  {
    if !who.DoctorUser? then Some(Forbidden)
    else if req.appointmentId !in appointments then Some(NotFound)
    else
      var a := appointments[req.appointmentId];
      if a.doctorId != who.doctorId then Some(Forbidden)
      else if a.status != Completed then Some(BadRequest(NotCompleted))
      else if DateBefore(req.dateIssued, a.dateTime.date) then Some(BadRequest(IssuedBeforeAppointment))
      else if req.cost.Some? && req.cost.value < 0 then Some(BadRequest(NegativeCost))
      else None
  }

  /** An admin may never write a prescription, whatever the appointment. */
  lemma AdminCannotPrescribe(appointments: map<Id, Appointment>, req: NewPrescription)
    ensures PrescriptionRejection(appointments, Admin, req) == Some(Forbidden)
  {
  }

  /**
   * Ownership is checked before status: a doctor writing for another
   * doctor's appointment is refused with 403 whatever its status.
   */
  lemma OwnershipCheckedBeforeStatus(appointments: map<Id, Appointment>, d: Id, req: NewPrescription)
    requires req.appointmentId in appointments && appointments[req.appointmentId].doctorId != d
    ensures PrescriptionRejection(appointments, DoctorUser(d), req) == Some(Forbidden)
  {
  }

  /**
   * `create_prescription`: on success exactly one prescription is added,
   * with the payload's fields, and it hangs off a completed appointment of
   * the calling doctor dated no later than the prescription.
   */
  method CreatePrescription(store: ClinicStore, who: Principal, req: NewPrescription, now: DateTime)
    returns (r: Result<Id>)
    requires store.Valid()
    modifies store
    ensures store.Valid()
    ensures var rejection := PrescriptionRejection(old(store.appointments), who, req);
            && (r.Err? <==> rejection.Some?)
            && (r.Err? ==> r.error == rejection.value)
    ensures r.Err? ==> unchanged(store)
    ensures r.Ok? ==>
      && r.value !in old(store.prescriptions)
      && store.prescriptions == old(store.prescriptions)[r.value :=
           Prescription(req.appointmentId, req.medication, req.dosage, req.instructions, req.dateIssued, req.cost, now)]
      && who.DoctorUser?
      && req.appointmentId in store.appointments
      && store.appointments[req.appointmentId].doctorId == who.doctorId
      && store.appointments[req.appointmentId].status == Completed
    ensures r.Ok? ==>
      && store.users == old(store.users) && store.doctors == old(store.doctors)
      && store.patients == old(store.patients) && store.appointments == old(store.appointments)
      && store.nextPatientId == old(store.nextPatientId)
      && store.nextAppointmentId == old(store.nextAppointmentId)
  {
    var rejection := PrescriptionRejection(store.appointments, who, req);
    if rejection.Some? {
      return Err(rejection.value);
    }
    var id := store.nextPrescriptionId;
    store.prescriptions := store.prescriptions[id :=
      Prescription(req.appointmentId, req.medication, req.dosage, req.instructions, req.dateIssued, req.cost, now)];
    store.nextPrescriptionId := id + 1;
    r := Ok(id);
  }

  // ---------------------------------------------------------------------
  // List, newest first
  // ---------------------------------------------------------------------

  /** `date_issued` never increases along `s`. */
  predicate NewestFirst(s: seq<Id>, prescriptions: map<Id, Prescription>) {
    forall i, j :: 0 <= i < j < |s| ==>
      s[i] in prescriptions && s[j] in prescriptions
      && !DateBefore(prescriptions[s[i]].dateIssued, prescriptions[s[j]].dateIssued)
  }

  /** `id` was issued on or after every prescription in `s`. */
  predicate NoOlderThanAll(id: Id, s: seq<Id>, prescriptions: map<Id, Prescription>)
    requires id in prescriptions
  {
    forall j :: 0 <= j < |s| ==> s[j] in prescriptions && !DateBefore(prescriptions[id].dateIssued, prescriptions[s[j]].dateIssued)
  }

  /** "Issued no earlier than" is transitive. */
  lemma NotBeforeTransitive(a: Date, b: Date, c: Date)
    requires !DateBefore(a, b) && !DateBefore(b, c)
    ensures !DateBefore(a, c)
  {
  }

  lemma PrependNewest(id: Id, s: seq<Id>, prescriptions: map<Id, Prescription>)
    requires id in prescriptions && NewestFirst(s, prescriptions) && NoOlderThanAll(id, s, prescriptions)
    ensures NewestFirst([id] + s, prescriptions)
  {
    var r := [id] + s;
    forall i, j | 0 <= i < j < |r|
      ensures r[i] in prescriptions && r[j] in prescriptions
      ensures !DateBefore(prescriptions[r[i]].dateIssued, prescriptions[r[j]].dateIssued)
    {
      assert r[j] == s[j - 1];
      if i > 0 {
        assert r[i] == s[i - 1];
      }
    }
  }

  /** Puts `id` into a newest-first sequence, ahead of everything issued on or before its date. */
  function InsertByDate(id: Id, s: seq<Id>, prescriptions: map<Id, Prescription>): (r: seq<Id>)
    requires id in prescriptions && forall i :: 0 <= i < |s| ==> s[i] in prescriptions
    requires NewestFirst(s, prescriptions)
    ensures NewestFirst(r, prescriptions)
    ensures multiset(r) == multiset(s) + multiset{id}
  {
    if s == [] then [id]
    else if !DateBefore(prescriptions[id].dateIssued, prescriptions[s[0]].dateIssued) then
      assert NoOlderThanAll(id, s, prescriptions) by {
        forall j | 0 <= j < |s|
          ensures !DateBefore(prescriptions[id].dateIssued, prescriptions[s[j]].dateIssued)
        {
          if j > 0 {
            NotBeforeTransitive(prescriptions[id].dateIssued, prescriptions[s[0]].dateIssued, prescriptions[s[j]].dateIssued);
          }
        }
      }
      PrependNewest(id, s, prescriptions);
      [id] + s
    else
      var tail := s[1..];
      assert NewestFirst(tail, prescriptions) by {
        forall i, j | 0 <= i < j < |tail|
          ensures tail[i] in prescriptions && tail[j] in prescriptions
          ensures !DateBefore(prescriptions[tail[i]].dateIssued, prescriptions[tail[j]].dateIssued)
        {
          assert tail[i] == s[i + 1] && tail[j] == s[j + 1];
        }
      }
      var rest := InsertByDate(id, tail, prescriptions);
      assert s == [s[0]] + tail;
      assert NoOlderThanAll(s[0], rest, prescriptions) by {
        forall j | 0 <= j < |rest|
          ensures rest[j] in prescriptions
          ensures !DateBefore(prescriptions[s[0]].dateIssued, prescriptions[rest[j]].dateIssued)
        {
          assert rest[j] in multiset(rest);
          if rest[j] != id {
            assert rest[j] in multiset(tail);
            var k :| 0 <= k < |tail| && tail[k] == rest[j];
            assert s[k + 1] == rest[j];
            assert 0 < k + 1;
          }
        }
      }
      PrependNewest(s[0], rest, prescriptions);
      [s[0]] + rest
  }

  /** `order_by("-date_issued")`: the same ids, newest first. */
  function SortNewestFirst(s: seq<Id>, prescriptions: map<Id, Prescription>): (r: seq<Id>)
    requires forall i :: 0 <= i < |s| ==> s[i] in prescriptions
    ensures NewestFirst(r, prescriptions)
    ensures multiset(r) == multiset(s)
  {
    if s == [] then []
    else
      assert s == [s[0]] + s[1..];
      var rest := SortNewestFirst(s[1..], prescriptions);
      assert forall i :: 0 <= i < |rest| ==> rest[i] in prescriptions by {
        forall i | 0 <= i < |rest| ensures rest[i] in prescriptions {
          assert rest[i] in multiset(s[1..]);
          var k :| 0 <= k < |s[1..]| && s[1..][k] == rest[i];
          assert s[k + 1] == rest[i];
        }
      }
      InsertByDate(s[0], rest, prescriptions)
  }

  /** The prescription passes the doctor scope and every filter the request supplied. */
  predicate Matches(p: Prescription, appointments: map<Id, Appointment>, who: Principal, f: PrescriptionFilters) {
    && p.appointmentId in appointments
    && (who.DoctorUser? ==> appointments[p.appointmentId].doctorId == who.doctorId)
    && (Supplied(f.patientId) ==> appointments[p.appointmentId].patientId == f.patientId.value)
    && (Supplied(f.doctorId) ==> appointments[p.appointmentId].doctorId == f.doctorId.value)
    && (Supplied(f.appointmentId) ==> p.appointmentId == f.appointmentId.value)
  }

  /** The filter the list applies to prescription ids. */
  function Admits(appointments: map<Id, Appointment>, prescriptions: map<Id, Prescription>,
    who: Principal, f: PrescriptionFilters): Id -> bool
  {
    (p: Id) => p in prescriptions && Matches(prescriptions[p], appointments, who, f)
  }

  /** The checks of the list endpoint: staff only, and a doctor may name no other doctor. */
  function ListRejection(who: Principal, f: PrescriptionFilters): (r: Option<Error>)
    ensures r.None? <==> IsStaff(who) && (who.DoctorUser? && Supplied(f.doctorId) ==> f.doctorId.value == who.doctorId)
    ensures r.Some? ==> r.value == Forbidden
  {
    if !IsStaff(who) then Some(Forbidden)
    else if who.DoctorUser? && Supplied(f.doctorId) && f.doctorId.value != who.doctorId then Some(Forbidden)
    else None
  }

  /**
   * `list_prescriptions`: each matching prescription exactly once, and no
   * other, newest first.
   */
  function ListPrescriptions(
    appointments: map<Id, Appointment>, prescriptions: map<Id, Prescription>,
    who: Principal, f: PrescriptionFilters): (r: Result<seq<Id>>)
    ensures var rejection := ListRejection(who, f);
            && (r.Err? <==> rejection.Some?)
            && (r.Err? ==> r.error == rejection.value)
    ensures r.Ok? ==> NewestFirst(r.value, prescriptions)
    ensures r.Ok? ==>
      forall p :: multiset(r.value)[p] == (if p in prescriptions && Matches(prescriptions[p], appointments, who, f) then 1 else 0)
  {
    var rejection := ListRejection(who, f);
    if rejection.Some? then Err(rejection.value)
    else
      var keep := Admits(appointments, prescriptions, who, f);
      var selected := Select(SortedIds(prescriptions.Keys), keep);
      SelectIncreasing(SortedIds(prescriptions.Keys), keep);
      IncreasingCountsOnce(selected);
      Ok(SortNewestFirst(selected, prescriptions))
  }

  /** For a doctor, naming themselves as the doctor filter admits the same prescriptions as naming nobody. */
  lemma NamingSelfAdmitsSame(
    appointments: map<Id, Appointment>, prescriptions: map<Id, Prescription>, d: Id, f: PrescriptionFilters)
    ensures forall x :: Admits(appointments, prescriptions, DoctorUser(d), f.(doctorId := Some(d)))(x)
                     == Admits(appointments, prescriptions, DoctorUser(d), f.(doctorId := None))(x)
  {
  }

  /**
   * Unlike the appointment list, a doctor who names themselves as the
   * doctor filter gets exactly what they get naming no doctor.
   */
  lemma {:induction false} DoctorNamingSelfIsHarmless(
    appointments: map<Id, Appointment>, prescriptions: map<Id, Prescription>, d: Id, f: PrescriptionFilters)
    ensures ListPrescriptions(appointments, prescriptions, DoctorUser(d), f.(doctorId := Some(d)))
         == ListPrescriptions(appointments, prescriptions, DoctorUser(d), f.(doctorId := None))
  {
    var named := f.(doctorId := Some(d));
    var unnamed := f.(doctorId := None);
    var ids := SortedIds(prescriptions.Keys);
    var keep := Admits(appointments, prescriptions, DoctorUser(d), named);
    var keep' := Admits(appointments, prescriptions, DoctorUser(d), unnamed);
    NamingSelfAdmitsSame(appointments, prescriptions, d, f);
    SelectAgrees(ids, keep, keep');
  }

  /** A doctor's list holds only prescriptions of their own appointments. */
  lemma DoctorListIsScoped(
    appointments: map<Id, Appointment>, prescriptions: map<Id, Prescription>, d: Id, f: PrescriptionFilters)
    ensures var r := ListPrescriptions(appointments, prescriptions, DoctorUser(d), f);
            r.Ok? ==> forall p :: p in r.value ==>
              p in prescriptions && prescriptions[p].appointmentId in appointments
              && appointments[prescriptions[p].appointmentId].doctorId == d
  {
    var r := ListPrescriptions(appointments, prescriptions, DoctorUser(d), f);
    if r.Ok? {
      forall p | p in r.value
        ensures p in prescriptions && prescriptions[p].appointmentId in appointments
        ensures appointments[prescriptions[p].appointmentId].doctorId == d
      {
        assert multiset(r.value)[p] > 0;
      }
    }
  }

  // ---------------------------------------------------------------------
  // Get
  // ---------------------------------------------------------------------

  /** `get_prescription`: the prescription, if the caller may see it. */
  function GetPrescription(
    appointments: map<Id, Appointment>, prescriptions: map<Id, Prescription>, who: Principal, id: Id): (r: Result<Prescription>)
    requires PrescriptionsBound(appointments, prescriptions)
    ensures r.Ok? <==>
      IsStaff(who) && id in prescriptions && ActsFor(who, appointments[prescriptions[id].appointmentId].doctorId)
    ensures r.Ok? ==> r.value == prescriptions[id]
    ensures !IsStaff(who) ==> r == Err(Forbidden)
    ensures IsStaff(who) && id !in prescriptions ==> r == Err(NotFound)
    ensures IsStaff(who) && id in prescriptions && !ActsFor(who, appointments[prescriptions[id].appointmentId].doctorId)
            ==> r == Err(Forbidden)
  {
    if !IsStaff(who) then Err(Forbidden)
    else if id !in prescriptions then Err(NotFound)
    else if !ActsFor(who, appointments[prescriptions[id].appointmentId].doctorId) then Err(Forbidden)
    else Ok(prescriptions[id])
  }

  /** An id is in a successful list exactly when its prescription passes the filters. */
  lemma ListedIffMatches(
    appointments: map<Id, Appointment>, prescriptions: map<Id, Prescription>,
    who: Principal, f: PrescriptionFilters, id: Id)
    requires ListPrescriptions(appointments, prescriptions, who, f).Ok?
    ensures id in ListPrescriptions(appointments, prescriptions, who, f).value
            <==> id in prescriptions && Matches(prescriptions[id], appointments, who, f)
  {
    var r := ListPrescriptions(appointments, prescriptions, who, f);
    assert id in r.value <==> multiset(r.value)[id] > 0;
  }

  /** What a caller may get by id is exactly what their list shows when no filter is supplied. */
  lemma GetAgreesWithList(
    appointments: map<Id, Appointment>, prescriptions: map<Id, Prescription>,
    who: Principal, f: PrescriptionFilters, id: Id)
    requires PrescriptionsBound(appointments, prescriptions)
    requires IsStaff(who)
    requires !Supplied(f.patientId) && !Supplied(f.doctorId) && !Supplied(f.appointmentId)
    ensures ListPrescriptions(appointments, prescriptions, who, f).Ok?
    ensures GetPrescription(appointments, prescriptions, who, id).Ok?
            <==> id in ListPrescriptions(appointments, prescriptions, who, f).value
  {
    assert ListRejection(who, f).None?;
    ListedIffMatches(appointments, prescriptions, who, f, id);
    if id in prescriptions {
      assert prescriptions[id].appointmentId in appointments;
    }
  }
}

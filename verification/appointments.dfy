/**
 * The appointment scheduler: create, list, get, update and cancel.
 *
 * Each operation runs its checks in a fixed order and stops at the first
 * that fails. The checks are functions of the tables as they stand; the
 * operations that write apply their change only when every check passed.
 */
module Appointments {
  import opened Wrappers
  import opened Calendar
  import opened Models
  import opened Rows
  import opened Access
  import opened Store

  datatype NewAppointment = NewAppointment(
    patientId: Id,
    doctorId: Id,
    dateTime: DateTime,
    reason: Option<string>,
    cost: Cents)

  /** The update payload; an absent field is left alone. */
  datatype AppointmentChanges = AppointmentChanges(
    patientId: Option<Id>,
    doctorId: Option<Id>,
    dateTime: Option<DateTime>,
    reason: Option<string>,
    status: Option<string>,
    cost: Option<Cents>)

  /** The list endpoint's query parameters. */
  datatype AppointmentFilters = AppointmentFilters(
    date: Option<string>,
    patientId: Option<Id>,
    doctorId: Option<Id>,
    status: Option<string>)

  /**
   * Some appointment outside `except` holds the doctor's slot at `t` and is
   * still scheduled.
   */
  predicate SlotTaken(appointments: map<Id, Appointment>, doctorId: Id, t: DateTime, except: set<Id>) {
    exists a :: a in appointments && a !in except
      && appointments[a].doctorId == doctorId
      && appointments[a].dateTime == t
      && appointments[a].status == Scheduled
  }

  // ---------------------------------------------------------------------
  // Create
  // ---------------------------------------------------------------------

  /** The checks before the 400-class ones: role, both references, and ownership. */
  predicate MayBook(patients: map<Id, Patient>, doctors: map<Id, Doctor>, who: Principal, req: NewAppointment) {
    IsStaff(who) && req.patientId in patients && req.doctorId in doctors && ActsFor(who, req.doctorId)
  }

  /** The first check a create request fails, if any. */
  function CreateRejection(
    patients: map<Id, Patient>, doctors: map<Id, Doctor>, appointments: map<Id, Appointment>,
    who: Principal, req: NewAppointment, now: DateTime): (r: Option<Error>)
    ensures r.None? <==>
      && MayBook(patients, doctors, who, req)
      && req.cost > 0
      && Before(now, req.dateTime)
      && !SlotTaken(appointments, req.doctorId, req.dateTime, {})
    ensures !IsStaff(who) ==> r == Some(Forbidden)
    ensures r == Some(NotFound) <==> IsStaff(who) && (req.patientId !in patients || req.doctorId !in doctors)
    ensures r == Some(Forbidden) <==>
      !IsStaff(who) || (req.patientId in patients && req.doctorId in doctors && !ActsFor(who, req.doctorId))
    ensures r == Some(BadRequest(NonPositiveCost)) <==> MayBook(patients, doctors, who, req) && req.cost <= 0
    ensures r == Some(BadRequest(NotInFuture)) <==>
      MayBook(patients, doctors, who, req) && req.cost > 0 && !Before(now, req.dateTime)
    ensures r == Some(BadRequest(DoubleBooked)) <==>
      && MayBook(patients, doctors, who, req) && req.cost > 0 && Before(now, req.dateTime)
      && SlotTaken(appointments, req.doctorId, req.dateTime, {})
  {
    if !IsStaff(who) then Some(Forbidden)
    else if req.patientId !in patients then Some(NotFound)
    else if req.doctorId !in doctors then Some(NotFound)
    else if !ActsFor(who, req.doctorId) then Some(Forbidden)
    else if req.cost <= 0 then Some(BadRequest(NonPositiveCost))
    else if !Before(now, req.dateTime) then Some(BadRequest(NotInFuture))
    else if SlotTaken(appointments, req.doctorId, req.dateTime, {}) then Some(BadRequest(DoubleBooked))
    else None
  }

  /**
   * `create_appointment`: on success, exactly one appointment is added, with
   * the payload's fields and status scheduled, and it alone holds its slot.
   */
  method CreateAppointment(store: ClinicStore, who: Principal, req: NewAppointment, now: DateTime)
    returns (r: Result<Id>)
    requires store.Valid()
    requires ValidDateTime(req.dateTime)
    modifies store
    ensures store.Valid()
    ensures var rejection := CreateRejection(old(store.patients), old(store.doctors), old(store.appointments), who, req, now);
            && (r.Err? <==> rejection.Some?)
            && (r.Err? ==> r.error == rejection.value)
    ensures r.Err? ==> unchanged(store)
    ensures r.Ok? ==>
      && r.value !in old(store.appointments)
      && store.appointments == old(store.appointments)[r.value :=
           Appointment(req.patientId, req.doctorId, req.dateTime, req.reason, Scheduled, req.cost, now)]
      && !SlotTaken(store.appointments, req.doctorId, req.dateTime, {r.value})
    ensures r.Ok? ==>
      && store.users == old(store.users) && store.doctors == old(store.doctors)
      && store.patients == old(store.patients) && store.prescriptions == old(store.prescriptions)
      && store.nextPatientId == old(store.nextPatientId)
      && store.nextPrescriptionId == old(store.nextPrescriptionId)
  {
    var rejection := CreateRejection(store.patients, store.doctors, store.appointments, who, req, now);
    if rejection.Some? {
      return Err(rejection.value);
    }
    var id := store.nextAppointmentId;
    store.appointments := store.appointments[id :=
      Appointment(req.patientId, req.doctorId, req.dateTime, req.reason, Scheduled, req.cost, now)];
    store.nextAppointmentId := id + 1;
    r := Ok(id);
  }

  /**
   * Once a booking succeeds, the same request made again is refused as a
   * double booking: the new appointment now holds the slot.
   */
  lemma SecondBookingRefused(
    patients: map<Id, Patient>, doctors: map<Id, Doctor>, appointments: map<Id, Appointment>,
    who: Principal, req: NewAppointment, now: DateTime, id: Id)
    requires CreateRejection(patients, doctors, appointments, who, req, now).None?
    ensures var booked := appointments[id :=
              Appointment(req.patientId, req.doctorId, req.dateTime, req.reason, Scheduled, req.cost, now)];
            CreateRejection(patients, doctors, booked, who, req, now) == Some(BadRequest(DoubleBooked))
  {
    var booked := appointments[id :=
      Appointment(req.patientId, req.doctorId, req.dateTime, req.reason, Scheduled, req.cost, now)];
    assert id in booked && booked[id].dateTime == req.dateTime;
  }

  // ---------------------------------------------------------------------
  // Get (and the lookup update and cancel share)
  // ---------------------------------------------------------------------

  /** `get_appointment`: the appointment, if the caller may see it. */
  function GetAppointment(appointments: map<Id, Appointment>, who: Principal, id: Id): (r: Result<Appointment>)
    ensures r.Ok? <==> IsStaff(who) && id in appointments && ActsFor(who, appointments[id].doctorId)
    ensures r.Ok? ==> r.value == appointments[id]
    ensures !IsStaff(who) ==> r == Err(Forbidden)
    ensures IsStaff(who) && id !in appointments ==> r == Err(NotFound)
    ensures IsStaff(who) && id in appointments && !ActsFor(who, appointments[id].doctorId) ==> r == Err(Forbidden)
  {
    if !IsStaff(who) then Err(Forbidden)
    else if id !in appointments then Err(NotFound)
    else if !ActsFor(who, appointments[id].doctorId) then Err(Forbidden)
    else Ok(appointments[id])
  }

  // ---------------------------------------------------------------------
  // List
  // ---------------------------------------------------------------------

  /** The appointment passes the doctor scope and every filter the request supplied. */
  predicate Matches(a: Appointment, who: Principal, f: AppointmentFilters) {
    && (who.DoctorUser? ==> a.doctorId == who.doctorId)
    && (Supplied(f.patientId) ==> a.patientId == f.patientId.value)
    && (TextSupplied(f.date) ==> ParseIsoDate(f.date.value) == Some(a.dateTime.date))
    && (Supplied(f.doctorId) && who.Admin? ==> a.doctorId == f.doctorId.value)
    && (TextSupplied(f.status) ==> ParseStatus(f.status.value) == Some(a.status))
  }

  /** The checks of the list endpoint, in its order. */
  function ListRejection(
    patients: map<Id, Patient>, doctors: map<Id, Doctor>, who: Principal, f: AppointmentFilters): (r: Option<Error>)
    ensures r.None? <==>
      && IsStaff(who)
      && !(who.DoctorUser? && f.doctorId.Some?)
      && (Supplied(f.patientId) ==> f.patientId.value in patients)
      && (TextSupplied(f.date) ==> ParseIsoDate(f.date.value).Some?)
      && (Supplied(f.doctorId) && who.Admin? ==> f.doctorId.value in doctors)
      && (TextSupplied(f.status) ==> ParseStatus(f.status.value).Some?)
    ensures r == Some(Forbidden) <==> !IsStaff(who) || (who.DoctorUser? && f.doctorId.Some?)
    ensures r == Some(NotFound) <==>
      && IsStaff(who) && !(who.DoctorUser? && f.doctorId.Some?)
      && (|| (Supplied(f.patientId) && f.patientId.value !in patients)
          || (&& (TextSupplied(f.date) ==> ParseIsoDate(f.date.value).Some?)
              && Supplied(f.doctorId) && who.Admin? && f.doctorId.value !in doctors))
    ensures r == Some(BadRequest(InvalidDateFormat)) <==>
      && IsStaff(who) && !(who.DoctorUser? && f.doctorId.Some?)
      && (Supplied(f.patientId) ==> f.patientId.value in patients)
      && TextSupplied(f.date) && ParseIsoDate(f.date.value).None?
    ensures r == Some(BadRequest(InvalidStatus)) <==>
      && IsStaff(who) && !(who.DoctorUser? && f.doctorId.Some?)
      && (Supplied(f.patientId) ==> f.patientId.value in patients)
      && (TextSupplied(f.date) ==> ParseIsoDate(f.date.value).Some?)
      && (Supplied(f.doctorId) && who.Admin? ==> f.doctorId.value in doctors)
      && TextSupplied(f.status) && ParseStatus(f.status.value).None?
  {
    if !IsStaff(who) then Some(Forbidden)
    else if who.DoctorUser? && f.doctorId.Some? then Some(Forbidden)
    else if Supplied(f.patientId) && f.patientId.value !in patients then Some(NotFound)
    else if TextSupplied(f.date) && ParseIsoDate(f.date.value).None? then Some(BadRequest(InvalidDateFormat))
    else if Supplied(f.doctorId) && who.Admin? && f.doctorId.value !in doctors then Some(NotFound)
    else if TextSupplied(f.status) && ParseStatus(f.status.value).None? then Some(BadRequest(InvalidStatus))
    else None
  }

  /**
   * `list_appointments`: the ids, ascending, of exactly the appointments
   * that pass the doctor scope and every supplied filter.
   */
  function ListAppointments(
    patients: map<Id, Patient>, doctors: map<Id, Doctor>, appointments: map<Id, Appointment>,
    who: Principal, f: AppointmentFilters): (r: Result<seq<Id>>)
    ensures var rejection := ListRejection(patients, doctors, who, f);
            && (r.Err? <==> rejection.Some?)
            && (r.Err? ==> r.error == rejection.value)
    ensures r.Ok? ==> Increasing(r.value)
    ensures r.Ok? ==> forall a :: a in r.value <==> a in appointments && Matches(appointments[a], who, f)
  {
    var rejection := ListRejection(patients, doctors, who, f);
    if rejection.Some? then Err(rejection.value)
    else
      var keep := (a: Id) => a in appointments && Matches(appointments[a], who, f);
      SelectIncreasing(SortedIds(appointments.Keys), keep);
      Ok(Select(SortedIds(appointments.Keys), keep))
  }

  /**
   * A doctor sees only their own appointments, however the other filters are
   * set, and is refused for naming any doctor at all, themselves included.
   */
  lemma DoctorListIsScoped(
    patients: map<Id, Patient>, doctors: map<Id, Doctor>, appointments: map<Id, Appointment>,
    d: Id, f: AppointmentFilters)
    ensures var r := ListAppointments(patients, doctors, appointments, DoctorUser(d), f);
            && (f.doctorId.Some? ==> r == Err(Forbidden))
            && (r.Ok? ==> forall a :: a in r.value ==> a in appointments && appointments[a].doctorId == d)
  {
  }

  /** What a doctor may get by id is exactly what their unfiltered list shows. */
  lemma {:induction false} GetAgreesWithList(
    patients: map<Id, Patient>, doctors: map<Id, Doctor>, appointments: map<Id, Appointment>,
    who: Principal, id: Id)
    requires IsStaff(who)
    ensures var all := AppointmentFilters(None, None, None, None);
            var r := ListAppointments(patients, doctors, appointments, who, all);
            && r.Ok?
            && (GetAppointment(appointments, who, id).Ok? <==> id in r.value)
  {
  }

  // ---------------------------------------------------------------------
  // Update
  // ---------------------------------------------------------------------

  /** The appointment with the supplied fields applied; absent fields (and 0 ids) leave it alone. */
  function Updated(a: Appointment, ch: AppointmentChanges): Appointment {
    a.(patientId := if Supplied(ch.patientId) then ch.patientId.value else a.patientId,
       doctorId := if Supplied(ch.doctorId) then ch.doctorId.value else a.doctorId,
       dateTime := if ch.dateTime.Some? then ch.dateTime.value else a.dateTime,
       reason := if ch.reason.Some? then ch.reason else a.reason,
       status := if ch.status.Some? && ParseStatus(ch.status.value).Some? then ParseStatus(ch.status.value).value else a.status,
       cost := if ch.cost.Some? then ch.cost.value else a.cost)
  }

  /** Only an admin may reassign the patient or the doctor. */
  predicate MayReassign(who: Principal, ch: AppointmentChanges) {
    Supplied(ch.patientId) || Supplied(ch.doctorId) ==> who.Admin?
  }

  /** A reassigned patient and a reassigned doctor both exist. */
  predicate TargetsExist(patients: map<Id, Patient>, doctors: map<Id, Doctor>, ch: AppointmentChanges) {
    && (Supplied(ch.patientId) ==> ch.patientId.value in patients)
    && (Supplied(ch.doctorId) ==> ch.doctorId.value in doctors)
  }

  /** A supplied cost is positive and a supplied date-time lies after `now`. */
  predicate ValuesValid(ch: AppointmentChanges, now: DateTime) {
    && (ch.cost.Some? ==> ch.cost.value > 0)
    && (ch.dateTime.Some? ==> Before(now, ch.dateTime.value))
  }

  /** A supplied date-time is not held by another scheduled appointment of the (possibly reassigned) doctor. */
  predicate NewSlotFree(appointments: map<Id, Appointment>, id: Id, ch: AppointmentChanges)
    requires id in appointments
  {
    ch.dateTime.Some? ==> !SlotTaken(appointments, Updated(appointments[id], ch).doctorId, ch.dateTime.value, {id})
  }

  /** The first check an update request fails, if any. */
  function UpdateRejection(
    patients: map<Id, Patient>, doctors: map<Id, Doctor>, appointments: map<Id, Appointment>,
    who: Principal, id: Id, ch: AppointmentChanges, now: DateTime): (r: Option<Error>)
    ensures r.None? <==>
      && GetAppointment(appointments, who, id).Ok?
      && MayReassign(who, ch)
      && TargetsExist(patients, doctors, ch)
      && ValuesValid(ch, now)
      && NewSlotFree(appointments, id, ch)
      && (ch.status.Some? ==> ParseStatus(ch.status.value).Some?)
    ensures GetAppointment(appointments, who, id).Err? ==> r == Some(GetAppointment(appointments, who, id).error)
    ensures r == Some(Forbidden) <==>
      || GetAppointment(appointments, who, id) == Err(Forbidden)
      || (GetAppointment(appointments, who, id).Ok? && !MayReassign(who, ch))
    ensures r == Some(NotFound) <==>
      || GetAppointment(appointments, who, id) == Err(NotFound)
      || (GetAppointment(appointments, who, id).Ok? && MayReassign(who, ch) && !TargetsExist(patients, doctors, ch))
    ensures r == Some(BadRequest(NonPositiveCost)) <==>
      && GetAppointment(appointments, who, id).Ok? && MayReassign(who, ch) && TargetsExist(patients, doctors, ch)
      && ch.cost.Some? && ch.cost.value <= 0
    ensures r == Some(BadRequest(NotInFuture)) <==>
      && GetAppointment(appointments, who, id).Ok? && MayReassign(who, ch) && TargetsExist(patients, doctors, ch)
      && (ch.cost.Some? ==> ch.cost.value > 0)
      && ch.dateTime.Some? && !Before(now, ch.dateTime.value)
    ensures r == Some(BadRequest(DoubleBooked)) <==>
      && GetAppointment(appointments, who, id).Ok? && MayReassign(who, ch) && TargetsExist(patients, doctors, ch)
      && ValuesValid(ch, now)
      && ch.dateTime.Some? && !NewSlotFree(appointments, id, ch)
    ensures r == Some(BadRequest(InvalidStatus)) <==>
      && GetAppointment(appointments, who, id).Ok? && MayReassign(who, ch) && TargetsExist(patients, doctors, ch)
      && ValuesValid(ch, now) && NewSlotFree(appointments, id, ch)
      && ch.status.Some? && ParseStatus(ch.status.value).None?
  {
    match GetAppointment(appointments, who, id)
    case Err(e) => Some(e)
    case Ok(a) =>
      if Supplied(ch.doctorId) && !who.Admin? then Some(Forbidden)
      else if Supplied(ch.patientId) && !who.Admin? then Some(Forbidden)
      else if Supplied(ch.patientId) && ch.patientId.value !in patients then Some(NotFound)
      else if Supplied(ch.doctorId) && ch.doctorId.value !in doctors then Some(NotFound)
      else if ch.cost.Some? && ch.cost.value <= 0 then Some(BadRequest(NonPositiveCost))
      else if ch.dateTime.Some? && !Before(now, ch.dateTime.value) then Some(BadRequest(NotInFuture))
      else if ch.dateTime.Some? && SlotTaken(appointments, Updated(a, ch).doctorId, ch.dateTime.value, {id}) then
        Some(BadRequest(DoubleBooked))
      else if ch.status.Some? && ParseStatus(ch.status.value).None? then Some(BadRequest(InvalidStatus))
      else None
  }

  /**
   * `update_appointment`: all or nothing. On any error the store is as it
   * was; on success only this appointment changes, and only in the supplied
   * fields.
   */
  method UpdateAppointment(store: ClinicStore, who: Principal, id: Id, ch: AppointmentChanges, now: DateTime)
    returns (r: Result<Appointment>)
    requires store.Valid()
    requires ch.dateTime.Some? ==> ValidDateTime(ch.dateTime.value)
    modifies store
    ensures store.Valid()
    ensures var rejection := UpdateRejection(old(store.patients), old(store.doctors), old(store.appointments), who, id, ch, now);
            && (r.Err? <==> rejection.Some?)
            && (r.Err? ==> r.error == rejection.value)
    ensures r.Err? ==> unchanged(store)
    ensures r.Ok? ==>
      && id in old(store.appointments)
      && r.value == Updated(old(store.appointments)[id], ch)
      && store.appointments == old(store.appointments)[id := r.value]
    ensures r.Ok? ==>
      && store.users == old(store.users) && store.doctors == old(store.doctors)
      && store.patients == old(store.patients) && store.prescriptions == old(store.prescriptions)
      && store.nextPatientId == old(store.nextPatientId)
      && store.nextAppointmentId == old(store.nextAppointmentId)
      && store.nextPrescriptionId == old(store.nextPrescriptionId)
  {
    var rejection := UpdateRejection(store.patients, store.doctors, store.appointments, who, id, ch, now);
    if rejection.Some? {
      return Err(rejection.value);
    }
    var a := store.appointments[id];
    if Supplied(ch.patientId) {
      a := a.(patientId := ch.patientId.value);
    }
    if Supplied(ch.doctorId) {
      a := a.(doctorId := ch.doctorId.value);
    }
    if ch.dateTime.Some? {
      a := a.(dateTime := ch.dateTime.value);
    }
    if ch.reason.Some? {
      a := a.(reason := ch.reason);
    }
    if ch.status.Some? {
      a := a.(status := ParseStatus(ch.status.value).value);
    }
    if ch.cost.Some? {
      a := a.(cost := ch.cost.value);
    }
    store.appointments := store.appointments[id := a];
    r := Ok(a);
  }

  /**
   * The update's guard is local: when a new date-time is supplied, no other
   * scheduled appointment of the (possibly reassigned) doctor holds that slot
   * afterwards.
   */
  lemma UpdateKeepsNewSlotFree(
    patients: map<Id, Patient>, doctors: map<Id, Doctor>, appointments: map<Id, Appointment>,
    who: Principal, id: Id, ch: AppointmentChanges, now: DateTime)
    requires UpdateRejection(patients, doctors, appointments, who, id, ch, now).None?
    requires ch.dateTime.Some?
    ensures id in appointments
    ensures var a' := Updated(appointments[id], ch);
            !SlotTaken(appointments[id := a'], a'.doctorId, ch.dateTime.value, {id})
  {
  }

  /** An update that supplies nothing is accepted for anyone who may see the appointment, and changes nothing. */
  lemma EmptyUpdateIsNoOp(
    patients: map<Id, Patient>, doctors: map<Id, Doctor>, appointments: map<Id, Appointment>,
    who: Principal, id: Id, now: DateTime)
    requires GetAppointment(appointments, who, id).Ok?
    ensures var none := AppointmentChanges(None, None, None, None, None, None);
            && UpdateRejection(patients, doctors, appointments, who, id, none, now).None?
            && Updated(appointments[id], none) == appointments[id]
  {
  }

  /**
   * Status changes follow no transition order: any of the three statuses
   * may be set from any other, completed back to scheduled included.
   */
  lemma StatusUpdateIsUnrestricted(
    patients: map<Id, Patient>, doctors: map<Id, Doctor>, appointments: map<Id, Appointment>,
    who: Principal, id: Id, st: Status, now: DateTime)
    requires GetAppointment(appointments, who, id).Ok?
    ensures var ch := AppointmentChanges(None, None, None, None, Some(StatusName(st)), None);
            && UpdateRejection(patients, doctors, appointments, who, id, ch, now).None?
            && Updated(appointments[id], ch) == appointments[id].(status := st)
  {
    NamesRoundTrip(Male, st);
  }

  /**
   * Only a new date-time is checked for a clash: setting a canceled
   * appointment back to scheduled is accepted even when another scheduled
   * appointment already holds the same doctor and date-time.
   */
  lemma RescheduleByStatusIsNotChecked()
    ensures var t := DateTime(Date(2030, 6, 1), 36_000_000_000);
            var now := DateTime(Date(2025, 1, 1), 0);
            var created := DateTime(Date(2024, 12, 1), 0);
            var held := Appointment(1, 7, t, None, Scheduled, 10000, created);
            var dropped := Appointment(2, 7, t, None, Canceled, 10000, created);
            var appointments := map[1 := held, 2 := dropped];
            var ch := AppointmentChanges(None, None, None, None, Some("scheduled"), None);
            && UpdateRejection(map[], map[7 := Doctor(1, "", "", "", "", created)], appointments, Admin, 2, ch, now).None?
            && Updated(dropped, ch).status == Scheduled
            && SlotTaken(appointments[2 := Updated(dropped, ch)], 7, t, {1})
  {
    var t := DateTime(Date(2030, 6, 1), 36_000_000_000);
    var created := DateTime(Date(2024, 12, 1), 0);
    var dropped := Appointment(2, 7, t, None, Canceled, 10000, created);
    var ch := AppointmentChanges(None, None, None, None, Some("scheduled"), None);
    var appointments: map<Id, Appointment> := map[1 := Appointment(1, 7, t, None, Scheduled, 10000, created), 2 := dropped];
    var revived := appointments[2 := Updated(dropped, ch)];
    assert revived[2].status == Scheduled;
  }

  /**
   * Moving the only scheduled appointment out of a slot frees the slot: a
   * create there is refused as double-booked before the move and accepted
   * after it.
   */
  lemma {:induction false} MovingFreesSlot(
    patients: map<Id, Patient>, doctors: map<Id, Doctor>, appointments: map<Id, Appointment>,
    id: Id, later: DateTime, req: NewAppointment, now: DateTime)
    requires id in appointments
    requires appointments[id].doctorId == req.doctorId && appointments[id].dateTime == req.dateTime
    requires appointments[id].status == Scheduled
    requires !SlotTaken(appointments, req.doctorId, req.dateTime, {id})
    requires MayBook(patients, doctors, Admin, req) && req.cost > 0 && Before(now, req.dateTime)
    requires later != req.dateTime
    requires UpdateRejection(patients, doctors, appointments, Admin, id, AppointmentChanges(None, None, Some(later), None, None, None), now).None?
    ensures CreateRejection(patients, doctors, appointments, Admin, req, now) == Some(BadRequest(DoubleBooked))
    ensures var moved := Updated(appointments[id], AppointmentChanges(None, None, Some(later), None, None, None));
            CreateRejection(patients, doctors, appointments[id := moved], Admin, req, now).None?
  {
    assert SlotTaken(appointments, req.doctorId, req.dateTime, {});
    var moved := Updated(appointments[id], AppointmentChanges(None, None, Some(later), None, None, None));
    var appointments' := appointments[id := moved];
    if SlotTaken(appointments', req.doctorId, req.dateTime, {}) {
      var b :| b in appointments' && b !in {}
        && appointments'[b].doctorId == req.doctorId
        && appointments'[b].dateTime == req.dateTime
        && appointments'[b].status == Scheduled;
      assert b != id;
      assert SlotTaken(appointments, req.doctorId, req.dateTime, {id});
    }
  }

  // ---------------------------------------------------------------------
  // Cancel
  // ---------------------------------------------------------------------

  /** The first check a cancel request fails, if any. */
  function CancelRejection(appointments: map<Id, Appointment>, who: Principal, id: Id): (r: Option<Error>)
    ensures r.None? <==> GetAppointment(appointments, who, id).Ok? && appointments[id].status != Canceled
    ensures GetAppointment(appointments, who, id).Err? ==> r == Some(GetAppointment(appointments, who, id).error)
    ensures r == Some(BadRequest(AlreadyCanceled)) <==>
      GetAppointment(appointments, who, id).Ok? && appointments[id].status == Canceled
  {
    match GetAppointment(appointments, who, id)
    case Err(e) => Some(e)
    case Ok(a) => if a.status == Canceled then Some(BadRequest(AlreadyCanceled)) else None
  }

  /**
   * `cancel_appointment`: a scheduled or completed appointment becomes
   * canceled and nothing else changes; an already-canceled one is refused.
   */
  method CancelAppointment(store: ClinicStore, who: Principal, id: Id) returns (r: Result<()>)
    requires store.Valid()
    modifies store
    ensures store.Valid()
    ensures var rejection := CancelRejection(old(store.appointments), who, id);
            && (r.Err? <==> rejection.Some?)
            && (r.Err? ==> r.error == rejection.value)
    ensures r.Err? ==> unchanged(store)
    ensures r.Ok? ==>
      && id in old(store.appointments)
      && old(store.appointments)[id].status in {Scheduled, Completed}
      && store.appointments == old(store.appointments)[id := old(store.appointments)[id].(status := Canceled)]
    ensures r.Ok? ==>
      && store.users == old(store.users) && store.doctors == old(store.doctors)
      && store.patients == old(store.patients) && store.prescriptions == old(store.prescriptions)
      && store.nextPatientId == old(store.nextPatientId)
      && store.nextAppointmentId == old(store.nextAppointmentId)
      && store.nextPrescriptionId == old(store.nextPrescriptionId)
  {
    var rejection := CancelRejection(store.appointments, who, id);
    if rejection.Some? {
      return Err(rejection.value);
    }
    store.appointments := store.appointments[id := store.appointments[id].(status := Canceled)];
    r := Ok(());
  }

  /** Cancelling is not idempotent: a second cancel of the same appointment is refused with 400. */
  lemma CancelTwiceIsRefused(appointments: map<Id, Appointment>, who: Principal, id: Id)
    requires CancelRejection(appointments, who, id).None?
    ensures id in appointments
    ensures var canceled := appointments[id := appointments[id].(status := Canceled)];
            CancelRejection(canceled, who, id) == Some(BadRequest(AlreadyCanceled))
  {
  }
}

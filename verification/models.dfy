/**
 * The clinic's entities: users, doctors, patients, appointments and
 * prescriptions; their enumerations; the errors every endpoint reports; and
 * the referential integrity the tables keep, including what a cascading
 * delete removes.
 *
 * Money is an integer number of cents (the tables declare two decimal places).
 */
module Models {
  import opened Wrappers
  import opened Calendar

  type Id = int
  type Cents = int

  // ---------------------------------------------------------------------
  // Enumerations
  // ---------------------------------------------------------------------

  datatype Role = DoctorRole | AdminRole

  datatype Gender = Male | Female | OtherGender

  datatype Status = Scheduled | Completed | Canceled

  function GenderName(g: Gender): string {
    match g
    case Male => "male"
    case Female => "female"
    case OtherGender => "other"
  }

  /** The gender a payload string names, if it is one of the declared choices. */
  function ParseGender(s: string): (r: Option<Gender>)
    ensures r.Some? <==> s in {"male", "female", "other"}
    ensures r.Some? ==> GenderName(r.value) == s
  {
    if s == "male" then Some(Male)
    else if s == "female" then Some(Female)
    else if s == "other" then Some(OtherGender)
    else None
  }

  function StatusName(st: Status): string {
    match st
    case Scheduled => "scheduled"
    case Completed => "completed"
    case Canceled => "canceled"
  }

  /** The status a payload or query string names, if it is one of the three. */
  function ParseStatus(s: string): (r: Option<Status>)
    ensures r.Some? <==> s in {"scheduled", "completed", "canceled"}
    ensures r.Some? ==> StatusName(r.value) == s
  {
    if s == "scheduled" then Some(Scheduled)
    else if s == "completed" then Some(Completed)
    else if s == "canceled" then Some(Canceled)
    else None
  }

  /** Every gender and every status is named by exactly its own string. */
  lemma NamesRoundTrip(g: Gender, st: Status)
    ensures ParseGender(GenderName(g)) == Some(g)
    ensures ParseStatus(StatusName(st)) == Some(st)
  {
  }

  // ---------------------------------------------------------------------
  // Entities
  // ---------------------------------------------------------------------

  datatype User = User(username: string, role: Role)

  datatype Doctor = Doctor(
    userId: Id,
    firstName: string,
    lastName: string,
    specialty: string,
    phone: string,
    createdAt: DateTime)

  datatype Patient = Patient(
    firstName: string,
    lastName: string,
    dob: Date,
    gender: Gender,
    phone: string,
    email: Option<string>,
    address: string,
    insuranceId: Option<string>,
    createdAt: DateTime)

  datatype Appointment = Appointment(
    patientId: Id,
    doctorId: Id,
    dateTime: DateTime,
    reason: Option<string>,
    status: Status,
    cost: Cents,
    createdAt: DateTime)

  datatype Prescription = Prescription(
    appointmentId: Id,
    medication: string,
    dosage: string,
    instructions: string,
    dateIssued: Date,
    cost: Option<Cents>,
    createdAt: DateTime)

  /** An absent prescription cost counts as nothing. */
  function PrescriptionCost(p: Prescription): Cents {
    p.cost.GetOr(0)
  }

  // ---------------------------------------------------------------------
  // Callers and errors
  // ---------------------------------------------------------------------

  /** The authenticated caller: an admin, a doctor (by doctor id), or anyone else. */
  datatype Principal = Admin | DoctorUser(doctorId: Id) | OtherUser

  /** Why a request was refused with status 400. */
  datatype Reason =
    | NonPositiveCost
    | NotInFuture
    | DoubleBooked
    | InvalidStatus
    | InvalidDateFormat
    | AlreadyCanceled
    | NotCompleted
    | IssuedBeforeAppointment
    | NegativeCost
    | InvalidGender
    | YearRequired

  datatype Error = Forbidden | NotFound | BadRequest(reason: Reason)

  function HttpStatus(e: Error): (code: int)
    ensures code in {400, 403, 404}
    ensures code == 403 <==> e == Forbidden
    ensures code == 404 <==> e == NotFound
    ensures code == 400 <==> e.BadRequest?
  {
    match e
    case Forbidden => 403
    case NotFound => 404
    case BadRequest(_) => 400
  }

  datatype Result<T> = Ok(value: T) | Err(error: Error)

  /** Python truthiness of an optional integer parameter: absent and 0 both mean "not supplied". */
  predicate Supplied(o: Option<int>) {
    o.Some? && o.value != 0
  }

  /** Python truthiness of an optional string parameter: absent and "" both mean "not supplied". */
  predicate TextSupplied(o: Option<string>) {
    o.Some? && o.value != ""
  }

  // ---------------------------------------------------------------------
  // Integrity of the tables
  // ---------------------------------------------------------------------

  /** Each doctor is bound to a user of its own (a one-to-one link). */
  predicate DoctorsBound(users: map<Id, User>, doctors: map<Id, Doctor>) {
    && (forall d :: d in doctors ==> doctors[d].userId in users)
    && (forall d, e :: d in doctors && e in doctors && d != e ==> doctors[d].userId != doctors[e].userId)
  }

  /** Each appointment references an existing patient and an existing doctor. */
  predicate AppointmentsBound(patients: map<Id, Patient>, doctors: map<Id, Doctor>, appointments: map<Id, Appointment>) {
    forall a :: a in appointments ==> appointments[a].patientId in patients && appointments[a].doctorId in doctors
  }

  /** Each prescription references an existing appointment. */
  predicate PrescriptionsBound(appointments: map<Id, Appointment>, prescriptions: map<Id, Prescription>) {
    forall p :: p in prescriptions ==> prescriptions[p].appointmentId in appointments
  }

  /** The declared minimum of 0 on both costs. */
  predicate CostsDeclared(appointments: map<Id, Appointment>, prescriptions: map<Id, Prescription>) {
    && (forall a :: a in appointments ==> appointments[a].cost >= 0)
    && (forall p :: p in prescriptions ==> prescriptions[p].cost.Some? ==> prescriptions[p].cost.value >= 0)
  }

  /** Every stored appointment's date-time is a real instant: a valid date and a time of day within it. */
  predicate DatesValid(appointments: map<Id, Appointment>) {
    forall a :: a in appointments ==> ValidDateTime(appointments[a].dateTime)
  }

  // ---------------------------------------------------------------------
  // Cascading deletes
  // ---------------------------------------------------------------------

  /** The appointments that remain once those `gone` selects are deleted. */
  function AppointmentsWithout(appointments: map<Id, Appointment>, gone: Appointment -> bool): (r: map<Id, Appointment>)
    ensures forall a :: a in r <==> a in appointments && !gone(appointments[a])
    ensures forall a :: a in r ==> r[a] == appointments[a]
  {
    map a | a in appointments && !gone(appointments[a]) :: appointments[a]
  }

  /** The prescriptions whose appointment is still in `appointments`; the rest go with theirs. */
  function PrescriptionsOf(appointments: map<Id, Appointment>, prescriptions: map<Id, Prescription>): (r: map<Id, Prescription>)
    ensures PrescriptionsBound(appointments, r)
    ensures forall p :: p in r <==> p in prescriptions && prescriptions[p].appointmentId in appointments
    ensures forall p :: p in r ==> r[p] == prescriptions[p]
  {
    map p | p in prescriptions && prescriptions[p].appointmentId in appointments :: prescriptions[p]
  }

  /**
   * Deleting a patient deletes that patient's appointments and, with them,
   * their prescriptions; the tables stay bound and nothing else goes.
   */
  lemma PatientCascadeKeepsIntegrity(
    patients: map<Id, Patient>, doctors: map<Id, Doctor>,
    appointments: map<Id, Appointment>, prescriptions: map<Id, Prescription>, id: Id)
    requires AppointmentsBound(patients, doctors, appointments)
    requires PrescriptionsBound(appointments, prescriptions)
    requires CostsDeclared(appointments, prescriptions)
    ensures var appointments' := AppointmentsWithout(appointments, (a: Appointment) => a.patientId == id);
            var prescriptions' := PrescriptionsOf(appointments', prescriptions);
            && AppointmentsBound(patients - {id}, doctors, appointments')
            && PrescriptionsBound(appointments', prescriptions')
            && CostsDeclared(appointments', prescriptions')
            && (forall p :: p in prescriptions && p !in prescriptions' ==>
                  appointments[prescriptions[p].appointmentId].patientId == id)
  {
  }

  /**
   * Deleting a doctor deletes that doctor's appointments and their
   * prescriptions in the same way.
   */
  lemma DoctorCascadeKeepsIntegrity(
    patients: map<Id, Patient>, doctors: map<Id, Doctor>,
    appointments: map<Id, Appointment>, prescriptions: map<Id, Prescription>, id: Id)
    requires AppointmentsBound(patients, doctors, appointments)
    requires PrescriptionsBound(appointments, prescriptions)
    ensures var appointments' := AppointmentsWithout(appointments, (a: Appointment) => a.doctorId == id);
            var prescriptions' := PrescriptionsOf(appointments', prescriptions);
            && AppointmentsBound(patients, doctors - {id}, appointments')
            && PrescriptionsBound(appointments', prescriptions')
            && (forall p :: p in prescriptions && p !in prescriptions' ==>
                  appointments[prescriptions[p].appointmentId].doctorId == id)
  {
  }
}

/**
 * The clinic's tables as one mutable store: a map from id to record per
 * table, and the next id each auto-incrementing table hands out.
 */
module Store {
  import opened Models

  class ClinicStore {
    var users: map<Id, User>
    var doctors: map<Id, Doctor>
    var patients: map<Id, Patient>
    var appointments: map<Id, Appointment>
    var prescriptions: map<Id, Prescription>
    var nextPatientId: Id
    var nextAppointmentId: Id
    var nextPrescriptionId: Id

    /**
     * The tables are bound to each other, the costs respect their declared
     * minimums, and every id is positive and below the next one to be issued.
     */
    ghost predicate Valid()
      reads this
    {
      && DoctorsBound(users, doctors)
      && AppointmentsBound(patients, doctors, appointments)
      && PrescriptionsBound(appointments, prescriptions)
      && CostsDeclared(appointments, prescriptions)
      && DatesValid(appointments)
      && (forall d :: d in doctors ==> d >= 1)
      && nextPatientId >= 1 && nextAppointmentId >= 1 && nextPrescriptionId >= 1
      && (forall p :: p in patients ==> 1 <= p < nextPatientId)
      && (forall a :: a in appointments ==> 1 <= a < nextAppointmentId)
      && (forall p :: p in prescriptions ==> 1 <= p < nextPrescriptionId)
    }

    /** A store with the given accounts and no patients, appointments or prescriptions. */
    constructor (users: map<Id, User>, doctors: map<Id, Doctor>)
      requires DoctorsBound(users, doctors)
      requires forall d :: d in doctors ==> d >= 1
      ensures Valid()
      ensures this.users == users && this.doctors == doctors
      ensures patients == map[] && appointments == map[] && prescriptions == map[]
    {
      this.users := users;
      this.doctors := doctors;
      patients := map[];
      appointments := map[];
      prescriptions := map[];
      nextPatientId := 1;
      nextAppointmentId := 1;
      nextPrescriptionId := 1;
    }
  }
}

/**
 * The role checks every endpoint starts with, and the ownership rule that
 * scopes a doctor to their own appointments.
 */
module Access {
  import opened Models

  /** `is_admin_or_doctor`: only admins and doctors get past it. */
  predicate IsStaff(who: Principal) {
    who.Admin? || who.DoctorUser?
  }

  /** A doctor acts only on their own doctor id; an admin acts on any. */
  predicate ActsFor(who: Principal, doctorId: Id) {
    who.DoctorUser? ==> who.doctorId == doctorId
  }
}

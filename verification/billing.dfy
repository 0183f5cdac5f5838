/**
 * The admin billing report for a year, or for one month of it: completed
 * appointments and prescriptions issued in the period, their totals, and a
 * per-patient breakdown whose amounts add up to the total income.
 */
module Billing {
  import opened Wrappers
  import opened Calendar
  import opened Models
  import opened Rows

  /** One patient's running totals while the report is assembled. */
  datatype Tally = Tally(fullName: string, appointmentTotal: Cents, prescriptionTotal: Cents)

  /** One row of the per-patient breakdown. */
  datatype Entry = Entry(
    patientId: Id,
    fullName: string,
    appointmentTotal: Cents,
    prescriptionTotal: Cents,
    totalAmount: Cents)

  datatype Report = Report(
    year: int,
    month: Option<int>,
    totalAppointments: nat,
    totalPrescriptions: nat,
    totalIncome: Cents,
    breakdown: seq<Entry>)

  function FullName(p: Patient): string {
    p.firstName + " " + p.lastName
  }

  /** The date falls in the year and, when a month is supplied, in that month. */
  predicate InPeriod(d: Date, year: int, month: Option<int>) {
    d.year == year && (Supplied(month) ==> d.month == month.value)
  }

  // ---------------------------------------------------------------------
  // What is billed
  // ---------------------------------------------------------------------

  /** The completed appointments dated in the period, ascending by id. */
  function BilledAppointments(appointments: map<Id, Appointment>, year: int, month: Option<int>): (r: seq<Id>)
    ensures Increasing(r)
    ensures forall a :: a in r <==>
      a in appointments && appointments[a].status == Completed && InPeriod(appointments[a].dateTime.date, year, month)
  {
    var keep := (a: Id) => a in appointments && appointments[a].status == Completed
                            && InPeriod(appointments[a].dateTime.date, year, month);
    SelectIncreasing(SortedIds(appointments.Keys), keep);
    Select(SortedIds(appointments.Keys), keep)
  }

  /**
   * The prescriptions issued in the period, ascending by id. Only the issue
   * date counts: neither the appointment's status nor its date plays a part.
   */
  function BilledPrescriptions(prescriptions: map<Id, Prescription>, year: int, month: Option<int>): (r: seq<Id>)
    ensures Increasing(r)
    ensures forall p :: p in r <==> p in prescriptions && InPeriod(prescriptions[p].dateIssued, year, month)
  {
    var keep := (p: Id) => p in prescriptions && InPeriod(prescriptions[p].dateIssued, year, month);
    SelectIncreasing(SortedIds(prescriptions.Keys), keep);
    Select(SortedIds(prescriptions.Keys), keep)
  }

  /** A prescription of a canceled appointment is still billed when it was issued in the period. */
  lemma PrescriptionsOfCanceledAreBilled(
    appointments: map<Id, Appointment>, prescriptions: map<Id, Prescription>, p: Id, year: int, month: Option<int>)
    requires p in prescriptions && InPeriod(prescriptions[p].dateIssued, year, month)
    requires prescriptions[p].appointmentId in appointments
    requires appointments[prescriptions[p].appointmentId].status == Canceled
    ensures p in BilledPrescriptions(prescriptions, year, month)
    ensures prescriptions[p].appointmentId !in BilledAppointments(appointments, year, month)
  {
  }

  // ---------------------------------------------------------------------
  // Sums
  // ---------------------------------------------------------------------

  predicate AllIn<T>(ids: seq<Id>, m: map<Id, T>) {
    forall i :: 0 <= i < |ids| ==> ids[i] in m
  }

  /** Each prescription in `ids` exists and so does its appointment. */
  predicate Traceable(ids: seq<Id>, appointments: map<Id, Appointment>, prescriptions: map<Id, Prescription>) {
    forall i :: 0 <= i < |ids| ==> ids[i] in prescriptions && prescriptions[ids[i]].appointmentId in appointments
  }

  /** The patient a prescription is billed to: the patient of its appointment. */
  function OwnerOf(p: Id, appointments: map<Id, Appointment>, prescriptions: map<Id, Prescription>): Id
    requires p in prescriptions && prescriptions[p].appointmentId in appointments
  {
    appointments[prescriptions[p].appointmentId].patientId
  }

  /** The sum of the appointments' costs. */
  function AppointmentsTotal(ids: seq<Id>, appointments: map<Id, Appointment>): Cents
    requires AllIn(ids, appointments)
  {
    if ids == [] then 0
    else AppointmentsTotal(ids[..|ids| - 1], appointments) + appointments[ids[|ids| - 1]].cost
  }

  /** The sum of the costs of those appointments that belong to `pid`. */
  function AppointmentsTotalFor(ids: seq<Id>, appointments: map<Id, Appointment>, pid: Id): Cents
    requires AllIn(ids, appointments)
  {
    if ids == [] then 0
    else
      var a := appointments[ids[|ids| - 1]];
      AppointmentsTotalFor(ids[..|ids| - 1], appointments, pid) + (if a.patientId == pid then a.cost else 0)
  }

  /** The patients of the appointments. */
  function AppointmentPatients(ids: seq<Id>, appointments: map<Id, Appointment>): set<Id>
    requires AllIn(ids, appointments)
  {
    if ids == [] then {}
    else AppointmentPatients(ids[..|ids| - 1], appointments) + {appointments[ids[|ids| - 1]].patientId}
  }

  /** The sum of the prescriptions' costs, an absent cost counting as nothing. */
  function PrescriptionsTotal(ids: seq<Id>, prescriptions: map<Id, Prescription>): Cents
    requires AllIn(ids, prescriptions)
  {
    if ids == [] then 0
    else PrescriptionsTotal(ids[..|ids| - 1], prescriptions) + PrescriptionCost(prescriptions[ids[|ids| - 1]])
  }

  /** The sum of the costs of those prescriptions billed to `pid`. */
  function PrescriptionsTotalFor(ids: seq<Id>, appointments: map<Id, Appointment>, prescriptions: map<Id, Prescription>, pid: Id): Cents
    requires Traceable(ids, appointments, prescriptions)
  {
    if ids == [] then 0
    else
      var p := ids[|ids| - 1];
      PrescriptionsTotalFor(ids[..|ids| - 1], appointments, prescriptions, pid)
        + (if OwnerOf(p, appointments, prescriptions) == pid then PrescriptionCost(prescriptions[p]) else 0)
  }

  /** The patients the prescriptions are billed to. */
  function PrescriptionPatients(ids: seq<Id>, appointments: map<Id, Appointment>, prescriptions: map<Id, Prescription>): set<Id>
    requires Traceable(ids, appointments, prescriptions)
  {
    if ids == [] then {}
    else PrescriptionPatients(ids[..|ids| - 1], appointments, prescriptions) + {OwnerOf(ids[|ids| - 1], appointments, prescriptions)}
  }

  /**
   * `met` followed by the patients of the appointments `ids` it does not yet
   * hold, each once, in the order they first appear.
   */
  function MeetAppointmentPatients(met: seq<Id>, ids: seq<Id>, appointments: map<Id, Appointment>): seq<Id>
    requires AllIn(ids, appointments)
  {
    if ids == [] then met
    else
      var before := MeetAppointmentPatients(met, ids[..|ids| - 1], appointments);
      var pid := appointments[ids[|ids| - 1]].patientId;
      if pid in before then before else before + [pid]
  }

  /** The same for the owners of the prescriptions `ids`. */
  function MeetPrescriptionOwners(
    met: seq<Id>, ids: seq<Id>, appointments: map<Id, Appointment>, prescriptions: map<Id, Prescription>): seq<Id>
    requires Traceable(ids, appointments, prescriptions)
  {
    if ids == [] then met
    else
      var before := MeetPrescriptionOwners(met, ids[..|ids| - 1], appointments, prescriptions);
      var pid := OwnerOf(ids[|ids| - 1], appointments, prescriptions);
      if pid in before then before else before + [pid]
  }

  /**
   * The billed patients in the order the report meets them: the patients of
   * the appointments first, then the owners of the prescriptions not yet met.
   */
  function FirstAppearance(
    appointments: map<Id, Appointment>, prescriptions: map<Id, Prescription>, billedA: seq<Id>, billedP: seq<Id>): seq<Id>
    requires AllIn(billedA, appointments) && Traceable(billedP, appointments, prescriptions)
  {
    MeetPrescriptionOwners(MeetAppointmentPatients([], billedA, appointments), billedP, appointments, prescriptions)
  }

  /**
   * Meeting the patients of appointments keeps what was met first, in front,
   * and adds each newly met patient once.
   */
  lemma {:induction false} MeetAppointmentPatientsOnce(met: seq<Id>, ids: seq<Id>, appointments: map<Id, Appointment>)
    requires AllIn(ids, appointments) && Distinct(met)
    ensures var r := MeetAppointmentPatients(met, ids, appointments);
            && |met| <= |r| && r[..|met|] == met
            && Distinct(r)
            && forall pid :: pid in r <==> pid in met || pid in AppointmentPatients(ids, appointments)
  {
    if ids != [] {
      var init := ids[..|ids| - 1];
      assert AllIn(init, appointments);
      MeetAppointmentPatientsOnce(met, init, appointments);
      var before := MeetAppointmentPatients(met, init, appointments);
      var pid := appointments[ids[|ids| - 1]].patientId;
      if pid !in before {
        var r := before + [pid];
        assert r[..|met|] == before[..|met|];
        forall i, j | 0 <= i < j < |r| ensures r[i] != r[j] {
          if j == |before| { assert r[i] == before[i]; assert before[i] in before; }
        }
      }
    }
  }

  /** The same for the owners of prescriptions. */
  lemma {:induction false} MeetPrescriptionOwnersOnce(
    met: seq<Id>, ids: seq<Id>, appointments: map<Id, Appointment>, prescriptions: map<Id, Prescription>)
    requires Traceable(ids, appointments, prescriptions) && Distinct(met)
    ensures var r := MeetPrescriptionOwners(met, ids, appointments, prescriptions);
            && |met| <= |r| && r[..|met|] == met
            && Distinct(r)
            && forall pid :: pid in r <==> pid in met || pid in PrescriptionPatients(ids, appointments, prescriptions)
  {
    if ids != [] {
      var init := ids[..|ids| - 1];
      assert Traceable(init, appointments, prescriptions);
      MeetPrescriptionOwnersOnce(met, init, appointments, prescriptions);
      var before := MeetPrescriptionOwners(met, init, appointments, prescriptions);
      var pid := OwnerOf(ids[|ids| - 1], appointments, prescriptions);
      if pid !in before {
        var r := before + [pid];
        assert r[..|met|] == before[..|met|];
        forall i, j | 0 <= i < j < |r| ensures r[i] != r[j] {
          if j == |before| { assert r[i] == before[i]; assert before[i] in before; }
        }
      }
    }
  }

  /**
   * The report's order lists every billed patient exactly once, the patients
   * of appointments ahead of those met only through a prescription.
   */
  lemma FirstAppearanceListsBilledOnce(
    appointments: map<Id, Appointment>, prescriptions: map<Id, Prescription>, billedA: seq<Id>, billedP: seq<Id>)
    requires AllIn(billedA, appointments) && Traceable(billedP, appointments, prescriptions)
    ensures var order := FirstAppearance(appointments, prescriptions, billedA, billedP);
            && Distinct(order)
            && (forall pid :: pid in order <==>
                  pid in AppointmentPatients(billedA, appointments) + PrescriptionPatients(billedP, appointments, prescriptions))
            && (forall i :: 0 <= i < |order| && order[i] !in AppointmentPatients(billedA, appointments) ==>
                  forall j :: 0 <= j < |order| && order[j] in AppointmentPatients(billedA, appointments) ==> j < i)
  {
    var first := MeetAppointmentPatients([], billedA, appointments);
    MeetAppointmentPatientsOnce([], billedA, appointments);
    MeetPrescriptionOwnersOnce(first, billedP, appointments, prescriptions);
    var order := FirstAppearance(appointments, prescriptions, billedA, billedP);
    forall i, j | 0 <= i < |order| && order[i] !in AppointmentPatients(billedA, appointments)
                  && 0 <= j < |order| && order[j] in AppointmentPatients(billedA, appointments)
      ensures j < i
    {
      assert forall k :: 0 <= k < |first| ==> order[k] == first[k];
      assert order[i] !in first && order[j] in first;
      var k :| 0 <= k < |first| && first[k] == order[j];
      assert order[k] == order[j];
      assert i >= |first|;
    }
  }

  /** A patient with no appointment among `ids` is owed nothing for them. */
  lemma {:induction false} NoAppointmentsNothingOwed(ids: seq<Id>, appointments: map<Id, Appointment>, pid: Id)
    requires AllIn(ids, appointments)
    requires pid !in AppointmentPatients(ids, appointments)
    ensures AppointmentsTotalFor(ids, appointments, pid) == 0
  {
    if ids != [] {
      NoAppointmentsNothingOwed(ids[..|ids| - 1], appointments, pid);
    }
  }

  /** A patient billed no prescription among `ids` is owed nothing for them. */
  lemma {:induction false} NoPrescriptionsNothingOwed(
    ids: seq<Id>, appointments: map<Id, Appointment>, prescriptions: map<Id, Prescription>, pid: Id)
    requires Traceable(ids, appointments, prescriptions)
    requires pid !in PrescriptionPatients(ids, appointments, prescriptions)
    ensures PrescriptionsTotalFor(ids, appointments, prescriptions, pid) == 0
  {
    if ids != [] {
      NoPrescriptionsNothingOwed(ids[..|ids| - 1], appointments, prescriptions, pid);
    }
  }

  /** Extending the billed appointments by one adds its cost to its patient's sum and to the total. */
  lemma AppointmentStep(ids: seq<Id>, i: nat, appointments: map<Id, Appointment>)
    requires AllIn(ids, appointments) && i < |ids|
    ensures AllIn(ids[..i], appointments) && AllIn(ids[..i + 1], appointments)
    ensures var a := appointments[ids[i]];
            && AppointmentsTotal(ids[..i + 1], appointments) == AppointmentsTotal(ids[..i], appointments) + a.cost
            && AppointmentPatients(ids[..i + 1], appointments) == AppointmentPatients(ids[..i], appointments) + {a.patientId}
            && forall pid :: AppointmentsTotalFor(ids[..i + 1], appointments, pid) ==
                 AppointmentsTotalFor(ids[..i], appointments, pid) + (if a.patientId == pid then a.cost else 0)
  {
    assert ids[..i + 1][..i] == ids[..i];
  }

  /** Extending the billed prescriptions by one adds its cost to its owner's sum and to the total. */
  lemma PrescriptionStep(ids: seq<Id>, i: nat, appointments: map<Id, Appointment>, prescriptions: map<Id, Prescription>)
    requires Traceable(ids, appointments, prescriptions) && i < |ids|
    ensures Traceable(ids[..i], appointments, prescriptions) && Traceable(ids[..i + 1], appointments, prescriptions)
    ensures AllIn(ids[..i], prescriptions) && AllIn(ids[..i + 1], prescriptions)
    ensures var p := prescriptions[ids[i]];
            var owner := OwnerOf(ids[i], appointments, prescriptions);
            && PrescriptionsTotal(ids[..i + 1], prescriptions) == PrescriptionsTotal(ids[..i], prescriptions) + PrescriptionCost(p)
            && PrescriptionPatients(ids[..i + 1], appointments, prescriptions) ==
                 PrescriptionPatients(ids[..i], appointments, prescriptions) + {owner}
            && forall pid :: PrescriptionsTotalFor(ids[..i + 1], appointments, prescriptions, pid) ==
                 PrescriptionsTotalFor(ids[..i], appointments, prescriptions, pid) + (if owner == pid then PrescriptionCost(p) else 0)
  {
    assert ids[..i + 1][..i] == ids[..i];
  }

  /** Meeting one more appointment's patient. */
  lemma MeetAppointmentStep(met: seq<Id>, ids: seq<Id>, i: nat, appointments: map<Id, Appointment>)
    requires AllIn(ids, appointments) && i < |ids|
    ensures AllIn(ids[..i], appointments) && AllIn(ids[..i + 1], appointments)
    ensures var before := MeetAppointmentPatients(met, ids[..i], appointments);
            var pid := appointments[ids[i]].patientId;
            MeetAppointmentPatients(met, ids[..i + 1], appointments) == if pid in before then before else before + [pid]
  {
    assert ids[..i + 1][..i] == ids[..i];
  }

  /** Meeting one more prescription's owner. */
  lemma MeetPrescriptionStep(
    met: seq<Id>, ids: seq<Id>, i: nat, appointments: map<Id, Appointment>, prescriptions: map<Id, Prescription>)
    requires Traceable(ids, appointments, prescriptions) && i < |ids|
    ensures Traceable(ids[..i], appointments, prescriptions) && Traceable(ids[..i + 1], appointments, prescriptions)
    ensures var before := MeetPrescriptionOwners(met, ids[..i], appointments, prescriptions);
            var pid := OwnerOf(ids[i], appointments, prescriptions);
            MeetPrescriptionOwners(met, ids[..i + 1], appointments, prescriptions) == if pid in before then before else before + [pid]
  {
    assert ids[..i + 1][..i] == ids[..i];
  }

  // ---------------------------------------------------------------------
  // Column sums over the tallies
  // ---------------------------------------------------------------------

  function AppointmentColumn(order: seq<Id>, tallies: map<Id, Tally>): Cents
    requires AllIn(order, tallies)
  {
    if order == [] then 0
    else AppointmentColumn(order[..|order| - 1], tallies) + tallies[order[|order| - 1]].appointmentTotal
  }

  function PrescriptionColumn(order: seq<Id>, tallies: map<Id, Tally>): Cents
    requires AllIn(order, tallies)
  {
    if order == [] then 0
    else PrescriptionColumn(order[..|order| - 1], tallies) + tallies[order[|order| - 1]].prescriptionTotal
  }

  /** Changing the tally of a patient listed once in `order` moves each column by that tally's change. */
  lemma {:induction false} ColumnsAfterUpdate(order: seq<Id>, tallies: map<Id, Tally>, pid: Id, t: Tally)
    requires AllIn(order, tallies) && Distinct(order) && pid in tallies
    ensures AllIn(order, tallies[pid := t])
    ensures AppointmentColumn(order, tallies[pid := t]) ==
      AppointmentColumn(order, tallies) + (if pid in order then t.appointmentTotal - tallies[pid].appointmentTotal else 0)
    ensures PrescriptionColumn(order, tallies[pid := t]) ==
      PrescriptionColumn(order, tallies) + (if pid in order then t.prescriptionTotal - tallies[pid].prescriptionTotal else 0)
  {
    if order != [] {
      var front := order[..|order| - 1];
      var last := order[|order| - 1];
      assert Distinct(front);
      assert pid in front ==> pid != last by {
        if pid in front {
          var k :| 0 <= k < |front| && front[k] == pid;
          assert order[k] == pid;
        }
      }
      assert pid in order <==> pid in front || pid == last by {
        assert order == front + [last];
      }
      ColumnsAfterUpdate(front, tallies, pid, t);
    }
  }

  /** Adding a patient not yet listed, with a zero tally, leaves both columns as they were. */
  lemma ColumnsAfterAdding(order: seq<Id>, tallies: map<Id, Tally>, pid: Id, name: string)
    requires AllIn(order, tallies) && Distinct(order) && pid !in order
    ensures AllIn(order + [pid], tallies[pid := Tally(name, 0, 0)])
    ensures Distinct(order + [pid])
    ensures AppointmentColumn(order + [pid], tallies[pid := Tally(name, 0, 0)]) == AppointmentColumn(order, tallies)
    ensures PrescriptionColumn(order + [pid], tallies[pid := Tally(name, 0, 0)]) == PrescriptionColumn(order, tallies)
  {
    var tallies' := tallies[pid := Tally(name, 0, 0)];
    if pid in tallies {
      ColumnsAfterUpdate(order, tallies, pid, Tally(name, 0, 0));
    } else {
      ColumnsUnaffected(order, tallies, pid, Tally(name, 0, 0));
    }
    assert (order + [pid])[..|order + [pid]| - 1] == order;
  }

  /** A tally for a patient outside `order` does not enter the columns. */
  lemma {:induction false} ColumnsUnaffected(order: seq<Id>, tallies: map<Id, Tally>, pid: Id, t: Tally)
    requires AllIn(order, tallies) && pid !in order
    ensures AllIn(order, tallies[pid := t])
    ensures AppointmentColumn(order, tallies[pid := t]) == AppointmentColumn(order, tallies)
    ensures PrescriptionColumn(order, tallies[pid := t]) == PrescriptionColumn(order, tallies)
  {
    if order != [] {
      var front := order[..|order| - 1];
      assert order == front + [order[|order| - 1]];
      ColumnsUnaffected(front, tallies, pid, t);
    }
  }

  /** Crediting amounts to the tally of a listed patient adds them to the columns. */
  lemma ColumnsCredited(order: seq<Id>, tallies: map<Id, Tally>, pid: Id, t: Tally, dA: Cents, dP: Cents)
    requires AllIn(order, tallies) && Distinct(order) && pid in tallies && pid in order
    requires t.appointmentTotal == tallies[pid].appointmentTotal + dA
    requires t.prescriptionTotal == tallies[pid].prescriptionTotal + dP
    ensures AllIn(order, tallies[pid := t])
    ensures AppointmentColumn(order, tallies[pid := t]) == AppointmentColumn(order, tallies) + dA
    ensures PrescriptionColumn(order, tallies[pid := t]) == PrescriptionColumn(order, tallies) + dP
  {
    ColumnsAfterUpdate(order, tallies, pid, t);
  }

  /** The sum of the breakdown's total amounts. */
  function BreakdownTotal(b: seq<Entry>): Cents {
    if b == [] then 0 else BreakdownTotal(b[..|b| - 1]) + b[|b| - 1].totalAmount
  }

  // ---------------------------------------------------------------------
  // The report
  // ---------------------------------------------------------------------

  /** The first check a report request fails, if any. */
  function ReportRejection(who: Principal, year: Option<int>): (r: Option<Error>)
    ensures r.None? <==> who.Admin? && Supplied(year)
    ensures !who.Admin? ==> r == Some(Forbidden)
    ensures who.Admin? && !Supplied(year) ==> r == Some(BadRequest(YearRequired))
  {
    if !who.Admin? then Some(Forbidden)
    else if !Supplied(year) then Some(BadRequest(YearRequired))
    else None
  }

  /** Every appointment's patient is on file. */
  predicate PatientsKnown(patients: map<Id, Patient>, appointments: map<Id, Appointment>) {
    forall a :: a in appointments ==> appointments[a].patientId in patients
  }

  lemma PatientOnFile(patients: map<Id, Patient>, appointments: map<Id, Appointment>, a: Id)
    requires PatientsKnown(patients, appointments) && a in appointments
    ensures appointments[a].patientId in patients
  {
  }

  /**
   * `tallies` and `order` account for the appointments `idsA` and the
   * prescriptions `idsP`: one tally per patient met, listed once in `order`,
   * holding that patient's own sums, the columns adding up to the totals.
   */
  ghost predicate Tallied(
    patients: map<Id, Patient>, appointments: map<Id, Appointment>, prescriptions: map<Id, Prescription>,
    idsA: seq<Id>, idsP: seq<Id>, tallies: map<Id, Tally>, order: seq<Id>)
    requires AllIn(idsA, appointments) && Traceable(idsP, appointments, prescriptions)
  {
    && Distinct(order) && AllIn(order, tallies)
    && (forall pid :: pid in tallies <==> pid in order)
    && (forall pid :: pid in order <==>
          pid in AppointmentPatients(idsA, appointments) + PrescriptionPatients(idsP, appointments, prescriptions))
    && (forall pid :: pid in tallies ==>
          && pid in patients
          && tallies[pid] == Tally(FullName(patients[pid]),
               AppointmentsTotalFor(idsA, appointments, pid),
               PrescriptionsTotalFor(idsP, appointments, prescriptions, pid)))
    && AppointmentColumn(order, tallies) == AppointmentsTotal(idsA, appointments)
    && PrescriptionColumn(order, tallies) == PrescriptionsTotal(idsP, prescriptions)
  }

  /** The tallies with one opened, at zero, for `pid` if it had none. */
  function Opened(tallies: map<Id, Tally>, pid: Id, name: string): (r: map<Id, Tally>)
    ensures pid in r && forall q :: q in tallies ==> q in r && r[q] == tallies[q]
    ensures forall q :: q in r ==> q in tallies || q == pid
  {
    if pid in tallies then tallies else tallies[pid := Tally(name, 0, 0)]
  }

  /** `order` with `pid` appended if it was not yet met. */
  function Met(order: seq<Id>, tallies: map<Id, Tally>, pid: Id): seq<Id> {
    if pid in tallies then order else order + [pid]
  }

  /** Opening a tally for a newly met patient keeps the accounting. */
  lemma OpeningKeepsTallied(
    patients: map<Id, Patient>, appointments: map<Id, Appointment>, prescriptions: map<Id, Prescription>,
    idsA: seq<Id>, idsP: seq<Id>, tallies: map<Id, Tally>, order: seq<Id>, pid: Id)
    requires AllIn(idsA, appointments) && Traceable(idsP, appointments, prescriptions)
    requires Tallied(patients, appointments, prescriptions, idsA, idsP, tallies, order)
    requires pid in patients
    ensures var tallies' := Opened(tallies, pid, FullName(patients[pid]));
            var order' := Met(order, tallies, pid);
            && Distinct(order') && AllIn(order', tallies')
            && (forall q :: q in tallies' <==> q in order')
            && (forall q :: q in order' <==>
                  q in AppointmentPatients(idsA, appointments) + PrescriptionPatients(idsP, appointments, prescriptions) + {pid})
            && (forall q :: q in tallies' ==>
                  && q in patients
                  && tallies'[q] == Tally(FullName(patients[q]),
                       AppointmentsTotalFor(idsA, appointments, q),
                       PrescriptionsTotalFor(idsP, appointments, prescriptions, q)))
            && AppointmentColumn(order', tallies') == AppointmentsTotal(idsA, appointments)
            && PrescriptionColumn(order', tallies') == PrescriptionsTotal(idsP, prescriptions)
  {
    if pid !in tallies {
      NoAppointmentsNothingOwed(idsA, appointments, pid);
      NoPrescriptionsNothingOwed(idsP, appointments, prescriptions, pid);
      ColumnsAfterAdding(order, tallies, pid, FullName(patients[pid]));
    }
  }

  /**
   * Crediting `dA` and `dP` to `pid`'s tally keeps every tally equal to its
   * patient's sums, once those sums grow by the same amounts for `pid` only.
   */
  lemma SumsCredited(
    patients: map<Id, Patient>, appointments: map<Id, Appointment>, prescriptions: map<Id, Prescription>,
    idsA: seq<Id>, idsA': seq<Id>, idsP: seq<Id>, idsP': seq<Id>,
    ready: map<Id, Tally>, pid: Id, t: Tally, dA: Cents, dP: Cents)
    requires AllIn(idsA, appointments) && AllIn(idsA', appointments)
    requires Traceable(idsP, appointments, prescriptions) && Traceable(idsP', appointments, prescriptions)
    requires forall q :: q in ready ==>
      && q in patients
      && ready[q] == Tally(FullName(patients[q]),
           AppointmentsTotalFor(idsA, appointments, q),
           PrescriptionsTotalFor(idsP, appointments, prescriptions, q))
    requires forall q ::
      AppointmentsTotalFor(idsA', appointments, q) == AppointmentsTotalFor(idsA, appointments, q) + (if q == pid then dA else 0)
    requires forall q ::
      PrescriptionsTotalFor(idsP', appointments, prescriptions, q) ==
        PrescriptionsTotalFor(idsP, appointments, prescriptions, q) + (if q == pid then dP else 0)
    requires pid in ready
    requires t == ready[pid].(appointmentTotal := ready[pid].appointmentTotal + dA,
                              prescriptionTotal := ready[pid].prescriptionTotal + dP)
    ensures forall q :: q in ready[pid := t] ==>
      && q in patients
      && ready[pid := t][q] == Tally(FullName(patients[q]),
           AppointmentsTotalFor(idsA', appointments, q),
           PrescriptionsTotalFor(idsP', appointments, prescriptions, q))
  {
    forall q | q in ready[pid := t]
      ensures q in patients
      ensures ready[pid := t][q] == Tally(FullName(patients[q]),
                AppointmentsTotalFor(idsA', appointments, q),
                PrescriptionsTotalFor(idsP', appointments, prescriptions, q))
    {
      assert q in ready;
    }
  }

  /**
   * Crediting the next appointment to its patient's tally, opened first if
   * the patient is new, accounts for one more appointment.
   */
  lemma CreditAppointment(
    patients: map<Id, Patient>, appointments: map<Id, Appointment>, prescriptions: map<Id, Prescription>,
    billedA: seq<Id>, i: nat, idsP: seq<Id>, tallies: map<Id, Tally>, order: seq<Id>,
    pid: Id, cost: Cents, ready: map<Id, Tally>)
    requires AllIn(billedA, appointments) && i < |billedA| && Traceable(idsP, appointments, prescriptions)
    requires PatientsKnown(patients, appointments)
    requires AllIn(billedA[..i], appointments)
    requires Tallied(patients, appointments, prescriptions, billedA[..i], idsP, tallies, order)
    requires billedA[i] in appointments
    requires pid == appointments[billedA[i]].patientId && cost == appointments[billedA[i]].cost
    requires pid in patients && ready == Opened(tallies, pid, FullName(patients[pid]))
    ensures AllIn(billedA[..i + 1], appointments)
    ensures Tallied(patients, appointments, prescriptions, billedA[..i + 1], idsP,
              ready[pid := ready[pid].(appointmentTotal := ready[pid].appointmentTotal + cost)],
              Met(order, tallies, pid))
  {
    AppointmentStep(billedA, i, appointments);
    OpeningKeepsTallied(patients, appointments, prescriptions, billedA[..i], idsP, tallies, order, pid);
    var met := Met(order, tallies, pid);
    var t := ready[pid].(appointmentTotal := ready[pid].appointmentTotal + cost);
    ColumnsCredited(met, ready, pid, t, cost, 0);
    SumsCredited(patients, appointments, prescriptions, billedA[..i], billedA[..i + 1], idsP, idsP, ready, pid, t, cost, 0);
  }

  /**
   * Crediting the next prescription to its owner's tally, opened first if
   * the patient is new, accounts for one more prescription.
   */
  lemma CreditPrescription(
    patients: map<Id, Patient>, appointments: map<Id, Appointment>, prescriptions: map<Id, Prescription>,
    idsA: seq<Id>, billedP: seq<Id>, i: nat, tallies: map<Id, Tally>, order: seq<Id>,
    pid: Id, cost: Cents, ready: map<Id, Tally>)
    requires AllIn(idsA, appointments) && Traceable(billedP, appointments, prescriptions) && i < |billedP|
    requires PatientsKnown(patients, appointments)
    requires Traceable(billedP[..i], appointments, prescriptions)
    requires Tallied(patients, appointments, prescriptions, idsA, billedP[..i], tallies, order)
    requires billedP[i] in prescriptions && prescriptions[billedP[i]].appointmentId in appointments
    requires pid == appointments[prescriptions[billedP[i]].appointmentId].patientId
    requires cost == PrescriptionCost(prescriptions[billedP[i]])
    requires pid in patients && ready == Opened(tallies, pid, FullName(patients[pid]))
    ensures Traceable(billedP[..i + 1], appointments, prescriptions)
    ensures Tallied(patients, appointments, prescriptions, idsA, billedP[..i + 1],
              ready[pid := ready[pid].(prescriptionTotal := ready[pid].prescriptionTotal + cost)],
              Met(order, tallies, pid))
  {
    PrescriptionStep(billedP, i, appointments, prescriptions);
    OpeningKeepsTallied(patients, appointments, prescriptions, idsA, billedP[..i], tallies, order, pid);
    var met := Met(order, tallies, pid);
    var t := ready[pid].(prescriptionTotal := ready[pid].prescriptionTotal + cost);
    ColumnsCredited(met, ready, pid, t, 0, cost);
    SumsCredited(patients, appointments, prescriptions, idsA, idsA, billedP[..i], billedP[..i + 1], ready, pid, t, 0, cost);
  }

  /**
   * The first loop of `billing_report`: each billed appointment is credited
   * to its patient's tally, a tally being opened the first time a patient is
   * met.
   */
  method TallyAppointments(
    patients: map<Id, Patient>, appointments: map<Id, Appointment>, prescriptions: map<Id, Prescription>, billedA: seq<Id>)
    returns (tallies: map<Id, Tally>, order: seq<Id>)
    requires AllIn(billedA, appointments)
    requires PatientsKnown(patients, appointments)
    ensures Tallied(patients, appointments, prescriptions, billedA, [], tallies, order)
    ensures order == MeetAppointmentPatients([], billedA, appointments)
  {
    tallies := map[];
    order := [];
    for i := 0 to |billedA|
      invariant AllIn(billedA[..i], appointments)
      invariant Tallied(patients, appointments, prescriptions, billedA[..i], [], tallies, order)
      invariant order == MeetAppointmentPatients([], billedA[..i], appointments)
    {
      var a := appointments[billedA[i]];
      var pid := a.patientId;
      PatientOnFile(patients, appointments, billedA[i]);
      MeetAppointmentStep([], billedA, i, appointments);
      assert pid in tallies <==> pid in order;
      ghost var tallies0, order0 := tallies, order;
      order := Met(order, tallies, pid);
      tallies := Opened(tallies, pid, FullName(patients[pid]));
      CreditAppointment(patients, appointments, prescriptions, billedA, i, [], tallies0, order0, pid, a.cost, tallies);
      tallies := tallies[pid := tallies[pid].(appointmentTotal := tallies[pid].appointmentTotal + a.cost)];
    }
    assert billedA[..|billedA|] == billedA;
  }

  /**
   * The second loop of `billing_report`: each billed prescription is
   * credited to its owner's tally, a tally being opened for a patient not
   * met among the appointments.
   */
  method TallyPrescriptions(
    patients: map<Id, Patient>, appointments: map<Id, Appointment>, prescriptions: map<Id, Prescription>,
    billedA: seq<Id>, billedP: seq<Id>, tallies0: map<Id, Tally>, order0: seq<Id>)
    returns (tallies: map<Id, Tally>, order: seq<Id>)
    requires AllIn(billedA, appointments) && Traceable(billedP, appointments, prescriptions)
    requires PatientsKnown(patients, appointments)
    requires Tallied(patients, appointments, prescriptions, billedA, [], tallies0, order0)
    ensures Tallied(patients, appointments, prescriptions, billedA, billedP, tallies, order)
    ensures order == MeetPrescriptionOwners(order0, billedP, appointments, prescriptions)
  {
    tallies := tallies0;
    order := order0;
    for i := 0 to |billedP|
      invariant Traceable(billedP[..i], appointments, prescriptions)
      invariant Tallied(patients, appointments, prescriptions, billedA, billedP[..i], tallies, order)
      invariant order == MeetPrescriptionOwners(order0, billedP[..i], appointments, prescriptions)
    {
      var p := prescriptions[billedP[i]];
      var pid := appointments[p.appointmentId].patientId;
      PatientOnFile(patients, appointments, p.appointmentId);
      MeetPrescriptionStep(order0, billedP, i, appointments, prescriptions);
      assert pid in tallies <==> pid in order;
      ghost var before, metBefore := tallies, order;
      order := Met(order, tallies, pid);
      tallies := Opened(tallies, pid, FullName(patients[pid]));
      CreditPrescription(patients, appointments, prescriptions, billedA, billedP, i, before, metBefore, pid, PrescriptionCost(p), tallies);
      tallies := tallies[pid := tallies[pid].(prescriptionTotal := tallies[pid].prescriptionTotal + PrescriptionCost(p))];
    }
    assert billedP[..|billedP|] == billedP;
  }

  /** The entry a patient's tally becomes: its fields, and their sum as the total amount. */
  function EntryOf(pid: Id, t: Tally): (e: Entry)
    ensures e.patientId == pid && e.totalAmount == e.appointmentTotal + e.prescriptionTotal
  {
    Entry(pid, t.fullName, t.appointmentTotal, t.prescriptionTotal, t.appointmentTotal + t.prescriptionTotal)
  }

  /**
   * The last loop of `billing_report`: one entry per tally, in the order the
   * patients were met; the entries' amounts add up to the two columns.
   */
  method Breakdown(order: seq<Id>, tallies: map<Id, Tally>) returns (breakdown: seq<Entry>)
    requires AllIn(order, tallies)
    ensures |breakdown| == |order|
    ensures forall k :: 0 <= k < |order| ==> breakdown[k] == EntryOf(order[k], tallies[order[k]])
    ensures BreakdownTotal(breakdown) == AppointmentColumn(order, tallies) + PrescriptionColumn(order, tallies)
  {
    breakdown := [];
    for i := 0 to |order|
      invariant |breakdown| == i
      invariant forall k :: 0 <= k < i ==> breakdown[k] == EntryOf(order[k], tallies[order[k]])
      invariant BreakdownTotal(breakdown) == AppointmentColumn(order[..i], tallies) + PrescriptionColumn(order[..i], tallies)
    {
      assert order[..i + 1][..i] == order[..i];
      var before := breakdown;
      breakdown := breakdown + [EntryOf(order[i], tallies[order[i]])];
      assert breakdown[..|breakdown| - 1] == before;
    }
    assert order[..|order|] == order;
  }

  /**
   * The breakdown lists each billed patient exactly once, and no one else,
   * and each entry carries that patient's name and own sums.
   */
  ghost predicate Itemizes(
    patients: map<Id, Patient>, appointments: map<Id, Appointment>, prescriptions: map<Id, Prescription>,
    billedA: seq<Id>, billedP: seq<Id>, breakdown: seq<Entry>)
    requires AllIn(billedA, appointments) && Traceable(billedP, appointments, prescriptions)
  {
    && (forall i, j :: 0 <= i < j < |breakdown| ==> breakdown[i].patientId != breakdown[j].patientId)
    && (forall i :: 0 <= i < |breakdown| ==>
          var e := breakdown[i];
          && e.patientId in patients
          && e.fullName == FullName(patients[e.patientId])
          && e.appointmentTotal == AppointmentsTotalFor(billedA, appointments, e.patientId)
          && e.prescriptionTotal == PrescriptionsTotalFor(billedP, appointments, prescriptions, e.patientId)
          && e.totalAmount == e.appointmentTotal + e.prescriptionTotal)
    && (forall pid :: (exists i :: 0 <= i < |breakdown| && breakdown[i].patientId == pid) <==>
          pid in AppointmentPatients(billedA, appointments) + PrescriptionPatients(billedP, appointments, prescriptions))
  }

  /** One entry per tally, in the order patients were met, itemizes the billed patients. */
  lemma BreakdownItemizes(
    patients: map<Id, Patient>, appointments: map<Id, Appointment>, prescriptions: map<Id, Prescription>,
    billedA: seq<Id>, billedP: seq<Id>, tallies: map<Id, Tally>, order: seq<Id>, breakdown: seq<Entry>)
    requires AllIn(billedA, appointments) && Traceable(billedP, appointments, prescriptions)
    requires Tallied(patients, appointments, prescriptions, billedA, billedP, tallies, order)
    requires |breakdown| == |order|
    requires forall k :: 0 <= k < |order| ==> breakdown[k] == EntryOf(order[k], tallies[order[k]])
    ensures Itemizes(patients, appointments, prescriptions, billedA, billedP, breakdown)
  {
    forall pid ensures (exists i :: 0 <= i < |breakdown| && breakdown[i].patientId == pid) <==> pid in order {
      if pid in order {
        var k :| 0 <= k < |order| && order[k] == pid;
        assert breakdown[k].patientId == pid;
      }
    }
    forall i, j | 0 <= i < j < |breakdown| ensures breakdown[i].patientId != breakdown[j].patientId {
      assert breakdown[i].patientId == order[i] && breakdown[j].patientId == order[j];
    }
    forall i | 0 <= i < |breakdown|
      ensures breakdown[i].patientId in patients
      ensures breakdown[i].fullName == FullName(patients[breakdown[i].patientId])
      ensures breakdown[i].appointmentTotal == AppointmentsTotalFor(billedA, appointments, breakdown[i].patientId)
      ensures breakdown[i].prescriptionTotal == PrescriptionsTotalFor(billedP, appointments, prescriptions, breakdown[i].patientId)
    {
      assert order[i] in order;
    }
  }

  /** Every itemized patient has something billed in the period. */
  lemma ItemizedPatientIsBilled(
    patients: map<Id, Patient>, appointments: map<Id, Appointment>, prescriptions: map<Id, Prescription>,
    billedA: seq<Id>, billedP: seq<Id>, breakdown: seq<Entry>, i: int)
    requires AllIn(billedA, appointments) && Traceable(billedP, appointments, prescriptions)
    requires Itemizes(patients, appointments, prescriptions, billedA, billedP, breakdown)
    requires 0 <= i < |breakdown|
    ensures breakdown[i].patientId in AppointmentPatients(billedA, appointments) + PrescriptionPatients(billedP, appointments, prescriptions)
  {
    var pid := breakdown[i].patientId;
    assert exists k :: 0 <= k < |breakdown| && breakdown[k].patientId == pid;
  }

  /** A period with nothing billed itemizes no patient at all. */
  lemma QuietPeriodHasNoEntries(
    patients: map<Id, Patient>, appointments: map<Id, Appointment>, prescriptions: map<Id, Prescription>,
    breakdown: seq<Entry>)
    requires Itemizes(patients, appointments, prescriptions, [], [], breakdown)
    ensures breakdown == []
  {
    if breakdown != [] {
      ItemizedPatientIsBilled(patients, appointments, prescriptions, [], [], breakdown, 0);
      assert false;
    }
  }

  /** The billed rows are all on file, and so is each billed prescription's appointment. */
  lemma BilledAreOnFile(
    appointments: map<Id, Appointment>, prescriptions: map<Id, Prescription>, year: int, month: Option<int>)
    requires PrescriptionsBound(appointments, prescriptions)
    ensures AllIn(BilledAppointments(appointments, year, month), appointments)
    ensures Traceable(BilledPrescriptions(prescriptions, year, month), appointments, prescriptions)
  {
    var billedA := BilledAppointments(appointments, year, month);
    var billedP := BilledPrescriptions(prescriptions, year, month);
    forall i | 0 <= i < |billedA| ensures billedA[i] in appointments {
      assert billedA[i] in billedA;
    }
    forall i | 0 <= i < |billedP| ensures billedP[i] in prescriptions {
      assert billedP[i] in billedP;
    }
  }

  /**
   * The three loops of `billing_report` together: the breakdown lists the
   * billed patients in the order they are first met, each with their own
   * sums, and its amounts add up to the period's income.
   */
  method ItemizedBreakdown(
    patients: map<Id, Patient>, appointments: map<Id, Appointment>, prescriptions: map<Id, Prescription>,
    billedA: seq<Id>, billedP: seq<Id>)
    returns (breakdown: seq<Entry>)
    requires AllIn(billedA, appointments) && Traceable(billedP, appointments, prescriptions)
    requires PatientsKnown(patients, appointments)
    ensures Itemizes(patients, appointments, prescriptions, billedA, billedP, breakdown)
    ensures BreakdownTotal(breakdown) == AppointmentsTotal(billedA, appointments) + PrescriptionsTotal(billedP, prescriptions)
    ensures |breakdown| == |FirstAppearance(appointments, prescriptions, billedA, billedP)|
    ensures forall k :: 0 <= k < |breakdown| ==>
      breakdown[k].patientId == FirstAppearance(appointments, prescriptions, billedA, billedP)[k]
  {
    var tallies, order := TallyAppointments(patients, appointments, prescriptions, billedA);
    tallies, order := TallyPrescriptions(patients, appointments, prescriptions, billedA, billedP, tallies, order);
    breakdown := Breakdown(order, tallies);
    BreakdownItemizes(patients, appointments, prescriptions, billedA, billedP, tallies, order, breakdown);
  }

  /**
   * `billing_report`: the counts and income of the period, and one entry per
   * billed patient, each with that patient's own sums; the entries add up
   * to the total income.
   */
  method BillingReport(
    patients: map<Id, Patient>, appointments: map<Id, Appointment>, prescriptions: map<Id, Prescription>,
    who: Principal, year: Option<int>, month: Option<int>)
    returns (r: Result<Report>)
    requires PatientsKnown(patients, appointments)
    requires PrescriptionsBound(appointments, prescriptions)
    ensures var rejection := ReportRejection(who, year);
            && (r.Err? <==> rejection.Some?)
            && (r.Err? ==> r.error == rejection.value)
    ensures r.Ok? ==>
      var billedA := BilledAppointments(appointments, year.value, month);
      var billedP := BilledPrescriptions(prescriptions, year.value, month);
      var report := r.value;
      && report.year == year.value && report.month == month
      && report.totalAppointments == |billedA|
      && report.totalPrescriptions == |billedP|
      && AllIn(billedA, appointments) && Traceable(billedP, appointments, prescriptions)
      && report.totalIncome == AppointmentsTotal(billedA, appointments) + PrescriptionsTotal(billedP, prescriptions)
      && Itemizes(patients, appointments, prescriptions, billedA, billedP, report.breakdown)
      && BreakdownTotal(report.breakdown) == report.totalIncome
    ensures r.Ok? ==>
      var order := FirstAppearance(appointments, prescriptions,
        BilledAppointments(appointments, year.value, month), BilledPrescriptions(prescriptions, year.value, month));
      && |r.value.breakdown| == |order|
      && forall k :: 0 <= k < |order| ==> r.value.breakdown[k].patientId == order[k]
  {
    var rejection := ReportRejection(who, year);
    if rejection.Some? {
      return Err(rejection.value);
    }
    var billedA := BilledAppointments(appointments, year.value, month);
    var billedP := BilledPrescriptions(prescriptions, year.value, month);
    BilledAreOnFile(appointments, prescriptions, year.value, month);
    var totalIncome := AppointmentsTotal(billedA, appointments) + PrescriptionsTotal(billedP, prescriptions);
    var breakdown := ItemizedBreakdown(patients, appointments, prescriptions, billedA, billedP);
    r := Ok(Report(year.value, month, |billedA|, |billedP|, totalIncome, breakdown));
  }
}

# ClinicFlow business rules in Dafny

ClinicFlow is a clinic-management web API: admins and doctors register
patients, book appointments with doctors, issue prescriptions for completed
appointments, and admins draw billing reports. This project models the
rules those endpoints enforce and proves properties of them. The rules cover:

- role and ownership checks (a doctor acts only on their own appointments);
- the guard chain each endpoint runs, with the first failing check deciding the response;
- double-booking prevention for a doctor's scheduled slots;
- the `%Y-%m-%d` date filter;
- prescription ordering;
- the per-patient billing breakdown.

Layout, one module per file:

| file | module | models |
|---|---|---|
| `wrappers.dfy` | `Wrappers` | `Option` |
| `calendar.dfy` | `Calendar` | dates, date-times, their order, the `%Y-%m-%d` parser and formatter |
| `models.dfy` | `Models` | the records of `api/models.py`, the status and gender choices, caller roles, error kinds, referential integrity and the delete cascades |
| `rows.dfy` | `Rows` | a table's ids in ascending order and filtering them (the iteration order of a query) |
| `store.dfy` | `Store` | `ClinicStore`, a class holding the tables as maps plus the next id each table hands out |
| `access.dfy` | `Access` | the `is_admin_or_doctor` guard and the doctor-ownership rule |
| `appointments.dfy` | `Appointments` | create, list, get, update, cancel |
| `prescriptions.dfy` | `Prescriptions` | create, list (newest first), get |
| `billing.dfy` | `Billing` | the billing report |
| `patients.dfy` | `Patients` | create, search, get, field-wise update, delete with cascade |

How endpoints are modelled:

- A read-only endpoint is a function over the tables.
- A mutating endpoint is a module-level method that takes the `ClinicStore` as a parameter and modifies it. It first computes the endpoint's rejection, a function that returns the first failing check. If there is one, the store is unchanged. Otherwise the method writes the new record, and its `ensures` state the whole new state and that the store's invariant `Valid` still holds.
- The billing report is a method. It follows the source's loops: one loop over billed appointments, one over billed prescriptions, then one that builds the entries. It is proved against sum functions defined on the billed rows.

Two behaviours of the code worth noting:

- Creating a prescription checks the doctor's ownership of the appointment (403) before the appointment's status (400). A doctor who does not own a non-completed appointment gets 403, not 400 (`Prescriptions.OwnershipCheckedBeforeStatus`).
- A double booking is answered with 400, like every other invalid input. It is not a separate conflict status.

## Model

| member | source | states |
|---|---|---|
| Calendar.DaysInMonth | api/endpoints/appointments.py:100 | a month has 28 to 31 days, and 29 exactly for February of a leap year |
| Calendar.BeforeIsStrictTotalOrder | api/endpoints/appointments.py:48 | the date-time order used to compare with "now" is irreflexive, transitive and total |
| Calendar.ParseIsoDate | api/endpoints/appointments.py:98-103 | a parsed date is a valid calendar date (year 1..9999, day within its month) |
| Calendar.ParseIsoDateSpelling | api/endpoints/appointments.py:100 | the parser accepts a string exactly when it spells the date: four digits, a one- or two-digit month, a one- or two-digit day or a space before one digit, joined by dashes, with no trailing text |
| Calendar.FormatIsoDate | api/endpoints/appointments.py:100 | the zero-padded spelling of a date is ten characters and spells that date |
| Calendar.ParseFormatRoundTrip | api/endpoints/appointments.py:100 | parsing the formatted date gives back the date |
| Models.ParseGender | api/models.py:26-33 | accepts exactly "male", "female", "other", and the parsed value's name is the input |
| Models.ParseStatus | api/models.py:49-56 | accepts exactly "scheduled", "completed", "canceled", and the parsed value's name is the input |
| Models.NamesRoundTrip | api/models.py:26-56 | every gender and status parses back from its stored name |
| Models.HttpStatus | api/endpoints/appointments.py:22 | every rejection is answered with 400, 403 or 404: 403 exactly for a refused caller, 404 exactly for a missing row, 400 exactly for invalid input |
| Models.AppointmentsWithout | api/models.py:58-59 | the cascade keeps exactly the appointments not referencing the deleted row, unchanged |
| Models.PrescriptionsOf | api/models.py:70 | the cascade keeps exactly the prescriptions whose appointment survives, unchanged, and they stay bound |
| Models.PatientCascadeKeepsIntegrity | api/models.py:58 | deleting a patient with its appointments and their prescriptions keeps every table bound and the cost minimums, and removes only prescriptions of that patient |
| Models.DoctorCascadeKeepsIntegrity | api/models.py:59 | deleting a doctor with its appointments and their prescriptions keeps every table bound, and removes only prescriptions of that doctor's appointments |
| Store.ClinicStore.constructor | api/models.py:7-79 | an empty clinic with the given accounts satisfies the store invariant |
| Appointments.CreateRejection | api/endpoints/appointments.py:28-57 | the checks run in order (staff, patient and doctor exist, ownership, cost > 0, in the future, slot free), with an if-and-only-if per outcome, including the 403 for a doctor booking for another doctor |
| Appointments.CreateAppointment | api/endpoints/appointments.py:28-69 | refused exactly when a check fails, with that check's error and the store unchanged; otherwise adds one scheduled appointment under a fresh id, leaves the other tables alone, and the doctor's slot holds no other scheduled appointment |
| Appointments.SecondBookingRefused | api/endpoints/appointments.py:51-57 | after a successful booking the same request is refused as double-booked |
| Appointments.GetAppointment | api/endpoints/appointments.py:127-141 | succeeds exactly for staff on an existing appointment they act for; otherwise 403 or 404 as the check order decides |
| Appointments.ListRejection | api/endpoints/appointments.py:79-119 | the checks run in order, with an if-and-only-if per outcome: 403 for non-staff or a doctor naming any doctor, then 404 for an unknown patient filter, 400 for an unparsable date, 404 for an admin's unknown doctor filter, 400 for an unknown status |
| Appointments.ListAppointments | api/endpoints/appointments.py:72-122 | the list is in ascending id order and holds exactly the appointments matching every supplied filter and, for a doctor, their own |
| Appointments.DoctorListIsScoped | api/endpoints/appointments.py:85-90 | a doctor's list holds only their own appointments, and naming a doctor (even themselves) is refused |
| Appointments.GetAgreesWithList | api/endpoints/appointments.py:133-139 | an appointment can be fetched by id exactly when it is in the caller's unfiltered list |
| Appointments.UpdateRejection | api/endpoints/appointments.py:144-202 | the checks run in order (get, admin-only reassignment, targets exist, cost > 0, future date, slot free excluding itself for the possibly reassigned doctor, valid status), with an if-and-only-if per outcome naming the checks that passed before it |
| Appointments.UpdateAppointment | api/endpoints/appointments.py:144-210 | all or nothing: refused with the first failing check and the store unchanged, or exactly the supplied fields are replaced and nothing else changes |
| Appointments.UpdateKeepsNewSlotFree | api/endpoints/appointments.py:181-189 | after an accepted reschedule, no other scheduled appointment of the doctor holds the new slot |
| Appointments.EmptyUpdateIsNoOp | api/endpoints/appointments.py:191-209 | an update that supplies nothing is accepted for anyone who may see the appointment and changes nothing |
| Appointments.StatusUpdateIsUnrestricted | api/endpoints/appointments.py:195-203 | any status may be set from any status, completed back to scheduled included |
| Appointments.RescheduleByStatusIsNotChecked | api/endpoints/appointments.py:177-203 | reviving a canceled appointment to scheduled is accepted even when another scheduled appointment holds its slot |
| Appointments.MovingFreesSlot | api/endpoints/appointments.py:181-189 | a create refused as double-booked is accepted once the slot's only scheduled appointment is moved away |
| Appointments.CancelRejection | api/endpoints/appointments.py:215-231 | cancel is refused exactly when get would be, or the appointment is already canceled; completed appointments may be canceled |
| Appointments.CancelAppointment | api/endpoints/appointments.py:215-236 | refused with the first failing check and the store unchanged, or only that appointment's status becomes canceled |
| Appointments.CancelTwiceIsRefused | api/endpoints/appointments.py:229-231 | cancelling is not idempotent: a second cancel is refused with 400 |
| Prescriptions.PrescriptionRejection | api/endpoints/prescriptions.py:25-53 | the checks run in order (doctor only, appointment exists, owns it, completed, issued no earlier than the appointment's date, cost not negative), with an if-and-only-if per outcome |
| Prescriptions.AdminCannotPrescribe | api/endpoints/prescriptions.py:30-32 | an admin is always refused with 403 |
| Prescriptions.OwnershipCheckedBeforeStatus | api/endpoints/prescriptions.py:40-45 | a doctor prescribing on another doctor's appointment gets 403 whatever the appointment's status |
| Prescriptions.CreatePrescription | api/endpoints/prescriptions.py:25-66 | refused with the first failing check and the store unchanged, or one prescription is added under a fresh id, bound to its appointment, and nothing else changes |
| Prescriptions.InsertByDate | api/endpoints/prescriptions.py:97 | inserting into a newest-first list keeps it newest first and adds exactly that id |
| Prescriptions.SortNewestFirst | api/endpoints/prescriptions.py:97 | the result is newest first by issue date and a permutation of the input |
| Prescriptions.ListRejection | api/endpoints/prescriptions.py:78-86 | only non-staff callers and doctors naming a different doctor are refused, always with 403 |
| Prescriptions.ListPrescriptions | api/endpoints/prescriptions.py:69-97 | the list is newest first and holds each matching prescription exactly once, and nothing else |
| Prescriptions.DoctorNamingSelfIsHarmless | api/endpoints/prescriptions.py:84-93 | a doctor naming themselves as the doctor filter gets the same list as naming nobody |
| Prescriptions.DoctorListIsScoped | api/endpoints/prescriptions.py:84-87 | a doctor's list holds only prescriptions of their own appointments |
| Prescriptions.GetPrescription | api/endpoints/prescriptions.py:100-115 | succeeds exactly for staff on an existing prescription of an appointment they act for; otherwise 403 for non-staff, 404 for a missing prescription, 403 for a doctor on another doctor's prescription |
| Prescriptions.ListedIffMatches | api/endpoints/prescriptions.py:69-97 | an id is in a successful list exactly when its prescription exists and passes the role and query filters |
| Prescriptions.GetAgreesWithList | api/endpoints/prescriptions.py:100-115 | a prescription can be fetched by id exactly when it is in the caller's list with no filter supplied (absent or 0) |
| Billing.ReportRejection | api/endpoints/billing.py:11-29 | only admins are served (403 otherwise), and a missing or zero year is refused with 400 |
| Billing.BilledAppointments | api/endpoints/billing.py:31-35 | exactly the completed appointments dated in the year and (when given) month |
| Billing.BilledPrescriptions | api/endpoints/billing.py:32-36 | exactly the prescriptions issued in the period, whatever their appointment |
| Billing.PrescriptionsOfCanceledAreBilled | api/endpoints/billing.py:31-36 | a prescription of a canceled appointment is billed although its appointment is not |
| Billing.NoAppointmentsNothingOwed | api/endpoints/billing.py:47-56 | a patient with no billed appointment owes nothing for appointments |
| Billing.NoPrescriptionsNothingOwed | api/endpoints/billing.py:58-67 | a patient with no billed prescription owes nothing for prescriptions |
| Billing.TallyAppointments | api/endpoints/billing.py:46-56 | the first loop opens one tally per patient, lists the patients in order of first appearance among the billed appointments, and credits each patient the sum of their appointments |
| Billing.TallyPrescriptions | api/endpoints/billing.py:58-67 | the second loop opens tallies for patients not yet met, appending them in order of first appearance among the billed prescriptions, and credits each patient the sum of their prescriptions, an absent cost counting as zero |
| Billing.MeetAppointmentPatientsOnce | api/endpoints/billing.py:46-55 | meeting the appointments' patients keeps the patients already met in front and adds each new patient exactly once |
| Billing.MeetPrescriptionOwnersOnce | api/endpoints/billing.py:58-66 | meeting the prescriptions' owners keeps the patients already met in front and adds each new owner exactly once |
| Billing.FirstAppearanceListsBilledOnce | api/endpoints/billing.py:46-74 | the report's order lists every billed patient exactly once, patients with a billed appointment ahead of those met only through a prescription |
| Billing.ItemizedBreakdown | api/endpoints/billing.py:44-74 | the three loops together: the breakdown follows the order of first appearance, itemizes the billed patients and adds up to the period's income |
| Billing.BilledAreOnFile | api/endpoints/billing.py:31-36 | every billed appointment and prescription is on file, and so is each billed prescription's appointment |
| Billing.EntryOf | api/endpoints/billing.py:72-74 | an entry's total amount is its appointment total plus its prescription total |
| Billing.Breakdown | api/endpoints/billing.py:69-74 | one entry per tally in order, and the entries' amounts add up to the two columns' sums |
| Billing.BreakdownItemizes | api/endpoints/billing.py:46-74 | the breakdown lists each billed patient once, with their name and their own sums, and no one else |
| Billing.ItemizedPatientIsBilled | api/endpoints/billing.py:46-67 | every patient in the breakdown has a billed appointment or prescription in the period |
| Billing.QuietPeriodHasNoEntries | api/endpoints/billing.py:46-74 | a period with nothing billed has an empty breakdown |
| Billing.BillingReport | api/endpoints/billing.py:20-83 | refused exactly as the checks say; otherwise echoes year and month, counts the billed rows, total income is the sum of both kinds of costs, the breakdown itemizes the billed patients in order of first appearance and adds up to the total income |
| Patients.CreateRejection | api/endpoints/patients.py:27-32 | only staff may create, and only with one of the three genders |
| Patients.Admitted | api/endpoints/patients.py:34 | the stored gender is the one requested |
| Patients.CreatePatient | api/endpoints/patients.py:27-35 | refused with the first failing check and the store unchanged, or one patient is added under a fresh id and nothing else changes |
| Patients.Folded | api/endpoints/patients.py:44 | case folding keeps the length and lowers each ASCII capital |
| Patients.HasInfix | api/endpoints/patients.py:44 | true exactly when the needle occurs at some position of the haystack |
| Patients.ListPatients | api/endpoints/patients.py:37-46 | staff get exactly the patients whose first or last name contains the supplied name ignoring case, or all patients when none is supplied |
| Patients.SearchIgnoresCase | api/endpoints/patients.py:44 | searching "SMITH" finds a patient named Smith |
| Patients.FoldedOccurs | api/endpoints/patients.py:44 | an occurrence of a text in a name is still an occurrence, at the same position, once both are case-folded |
| Patients.SearchIgnoresCaseEverywhere | api/endpoints/patients.py:44 | a patient whose first or last name contains a text is found by every spelling of that text that differs only in letter case |
| Patients.EmptyNameListsAll | api/endpoints/patients.py:42 | an empty name is no filter |
| Patients.GetPatient | api/endpoints/patients.py:48-52 | succeeds exactly for staff on an existing patient; otherwise 403 or 404 |
| Patients.Assigned | api/endpoints/patients.py:64-65 | setting one field gives it the new value and leaves every other field as it was |
| Patients.ApplyFields | api/endpoints/patients.py:59-65 | after the loop every supplied field has its supplied value and every other field its old one |
| Patients.UpdateRejection | api/endpoints/patients.py:54-62 | only staff, only an existing patient, and only a valid gender when one is supplied |
| Patients.UpdatePatient | api/endpoints/patients.py:54-68 | refused with the first failing check and the store unchanged, or only that patient changes, to the fields applied |
| Patients.UpdateWithOwnValuesIsNoOp | api/endpoints/patients.py:59-67 | an update that repeats the record's own values, an empty one included, leaves the record as it was |
| Patients.DeleteRejection | api/endpoints/patients.py:71-74 | only staff, and only an existing patient |
| Patients.DeletePatient | api/endpoints/patients.py:71-76 | refused with the first failing check and the store unchanged, or the patient, its appointments and their prescriptions go and nothing else |

## Left out

- Authentication (JWT), routing, request and response schemas, pagination, the admin site and the account-management endpoints are outside this model. The caller arrives as a `Principal`: admin, a doctor with their doctor id, or any other user.
- The current time is a parameter `now`; clocks are not modelled.
- Time zones: every date-time is taken to be in one zone, so its date, year and month are read off its fields.
- Money is a whole number of cents. The ten-digit limit of the decimal fields and decimal rounding are not modelled.
- Transactions and concurrency are not modelled: each endpoint runs alone on the store. So the claim that two concurrent creates for one slot cannot both succeed is not covered. Nor is the database constraint that would back it up, which the source does not declare.
- Appointments.ListAppointments: the rows of a query are taken in ascending id order; the database gives no order.
- Patients.ListPatients: the patients are listed in ascending id order; the query has no `order_by`, so the database gives no order.
- Billing.BilledAppointments: the billed appointments are taken in ascending id order; the query has no `order_by`. The breakdown's order of first appearance is therefore taken over ascending ids.
- Billing.BilledPrescriptions: the billed prescriptions are taken in ascending id order; the query has no `order_by`.
- Appointments.CreateAppointment and Appointments.UpdateAppointment require a supplied date-time to be a real instant (`ValidDateTime`). The request schema's parser guarantees this before the endpoint runs.
- Prescriptions.ListPrescriptions: the order among prescriptions issued on the same day is not stated; the database leaves it open too.
- Billing.BillingReport: a year outside 1..9999 ends in a server error in the source; the model filters by that year like any other.
- Calendar.ParseIsoDate: only ASCII digits are read as digits. The source's parser also accepts other Unicode decimal digits.
- Patients.HasInfix: case folding covers ASCII letters only; the database's case-insensitive match may fold more.
- Patients.UpdatePatient: requires that supplied values fit their fields, so an explicit null for a non-nullable field or a wrongly typed value is not modelled. In the source the request schema or the database rejects those.
- A doctor's user account without a doctor row makes `user.doctor` fail with a server error. The model's doctor principal always carries a doctor id.
- Users and doctors are created and removed only by the account-management endpoints, which are not part of this model. The store's constructor takes them as given.

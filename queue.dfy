/** The waiting-room state machine: one step function per socket handler of
    servidor.js, giving the next state and the messages emitted, in order.
    These are the reference definitions the `WaitingRoom` methods are proved
    against. */
module Queue {
  import opened Wrappers
  import opened Seqs
  import opened Entities
  import opened Broadcast

  /** The state a handler leaves and what it emits, in emission order. */
  datatype Step = Step(next: Room, emitted: seq<Event>)

  /** `medicos.find(m => m.id === id)`, as an index. */
  function FindDoctor(ds: seq<Doctor>, id: Id): Option<nat> { FindFirst(ds, DoctorId, id) }

  /** `pacientes.find(p => p.id === id)`, as an index. */
  function FindPatient(ps: seq<Patient>, id: Id): Option<nat> { FindFirst(ps, PatientId, id) }

  /** The `filter` predicate of `eliminar_medico`. */
  function OtherThan(id: Id): Doctor -> bool { (d: Doctor) => d.id != id }

  /** The `filter` predicate of `finalizar_atencion`. */
  function StillQueued(p: Patient): bool { p.status != Done }

  /** The patient at `k` with its `status` overwritten in place. */
  function Mark(ps: seq<Patient>, k: nat, st: Status): seq<Patient>
    requires k < |ps|
  {
    ps[k := ps[k].(status := st)]
  }

  /** `agregar_medico`: a doctor with the given id and fields and an empty
      `atendiendo` slot is pushed onto the list; the list is broadcast. */
  function AddDoctor(r: Room, id: Id, name: string, specialty: string, room: string): (s: Step)
    ensures |s.next.doctors| == |r.doctors| + 1
    ensures s.next.doctors[..|r.doctors|] == r.doctors
    ensures s.next.doctors[|r.doctors|] == Doctor(id, name, specialty, room, None)
    ensures s.next.patients == r.patients && s.next.call == r.call
    ensures s.emitted == [Event(Everyone, UpdateDoctors(s.next.doctors))]
    ensures ToAll(s.emitted) && Replay(r, s.emitted) == s.next
  {
    var next := r.(doctors := r.doctors + [Doctor(id, name, specialty, room, None)]);
    ReplayOne(r, Event(Everyone, UpdateDoctors(next.doctors)));
    Step(next, [Event(Everyone, UpdateDoctors(next.doctors))])
  }

  /** `eliminar_medico`: every doctor with that id is dropped, the others keep
      their order; patients are not touched, even the one an erased doctor
      was attending. The list is broadcast whether or not anything changed. */
  function RemoveDoctor(r: Room, id: Id): (s: Step)
    ensures forall k :: 0 <= k < |s.next.doctors| ==> s.next.doctors[k].id != id && s.next.doctors[k] in r.doctors
    ensures forall k :: 0 <= k < |r.doctors| && r.doctors[k].id != id ==> r.doctors[k] in s.next.doctors
    ensures forall d :: multiset(s.next.doctors)[d] == if d.id != id then multiset(r.doctors)[d] else 0
    ensures FindDoctor(r.doctors, id).None? ==> s.next.doctors == r.doctors
    ensures s.next.patients == r.patients && s.next.call == r.call
    ensures s.emitted == [Event(Everyone, UpdateDoctors(s.next.doctors))]
    ensures ToAll(s.emitted) && Replay(r, s.emitted) == s.next
  {
    var next := r.(doctors := Filter(r.doctors, OtherThan(id)));
    UnknownDoctorKept(r.doctors, id);
    FilterCounts(r.doctors, OtherThan(id));
    ReplayOne(r, Event(Everyone, UpdateDoctors(next.doctors)));
    Step(next, [Event(Everyone, UpdateDoctors(next.doctors))])
  }

  /** Filtering out an id no doctor has keeps the list as it is. */
  lemma UnknownDoctorKept(ds: seq<Doctor>, id: Id)
    ensures FindDoctor(ds, id).None? ==> Filter(ds, OtherThan(id)) == ds
  {
    if FindDoctor(ds, id).None? {
      FilterKeepsAll(ds, OtherThan(id));
    }
  }

  /** `registrar_paciente`: a waiting patient with the given id and name is
      pushed onto the queue; the queue is broadcast. */
  function RegisterPatient(r: Room, id: Id, name: string): (s: Step)
    ensures |s.next.patients| == |r.patients| + 1
    ensures s.next.patients[..|r.patients|] == r.patients
    ensures s.next.patients[|r.patients|] == Patient(id, name, Waiting)
    ensures s.next.doctors == r.doctors && s.next.call == r.call
    ensures s.emitted == [Event(Everyone, UpdatePatients(s.next.patients))]
    ensures ToAll(s.emitted) && Replay(r, s.emitted) == s.next
  {
    var next := r.(patients := r.patients + [Patient(id, name, Waiting)]);
    ReplayOne(r, Event(Everyone, UpdatePatients(next.patients)));
    Step(next, [Event(Everyone, UpdatePatients(next.patients))])
  }

  /** Whether `llamar_paciente` finds both the doctor and the patient. */
  predicate CallSucceeds(r: Room, doctorId: Id, patientId: Id)
  {
    FindDoctor(r.doctors, doctorId).Some? && FindPatient(r.patients, patientId).Some?
  }

  /** The patient index `llamar_paciente` marks `atendido` before the call:
      the first patient with the id in the doctor's slot, if any. */
  function Released(r: Room, doctor: Doctor): Option<nat>
  {
    if doctor.attending.Some? then FindPatient(r.patients, doctor.attending.value) else None
  }

  /** The patient list with the doctor's attended patient, if still listed,
      marked `atendido` in place (lines 56-58 and 85-88). */
  function ReleasePrevious(r: Room, doctor: Doctor): (ps: seq<Patient>)
    ensures |ps| == |r.patients|
    ensures Released(r, doctor).Some? ==>
      var k := Released(r, doctor).value;
      ps[k] == r.patients[k].(status := Done) && r.patients[k].id == doctor.attending.value
    ensures forall k :: 0 <= k < |r.patients| && Released(r, doctor) != Some(k) ==> ps[k] == r.patients[k]
  {
    match Released(r, doctor)
    case Some(k) => Mark(r.patients, k, Done)
    case None => r.patients
  }

  /** The state after doctor `i` calls patient `j` (lines 56-69); see
      `CallPatientEffect` for the effect on each record. */
  function Attend(r: Room, i: nat, j: nat): (a: Room)
    requires i < |r.doctors| && j < |r.patients|
    ensures |a.doctors| == |r.doctors| && |a.patients| == |r.patients|
    ensures a.doctors[i].attending == Some(r.patients[j].id) && a.patients[j].status == InProgress
    ensures a.call == Some(Call(r.patients[j].name, r.doctors[i].room, r.doctors[i].specialty))
  {
    var doctor := r.doctors[i];
    Room(r.doctors[i := doctor.(attending := Some(r.patients[j].id))],
         Mark(ReleasePrevious(r, doctor), j, InProgress),
         Some(Call(r.patients[j].name, doctor.room, doctor.specialty)))
  }

  /** The three broadcasts of a successful call, in emission order. */
  function Announcement(r: Room): (es: seq<Event>)
    ensures ToAll(es) && forall view :: Replay(view, es) == r
  {
    var es := [Event(Everyone, UpdatePatients(r.patients)), Event(Everyone, UpdateDoctors(r.doctors)),
               Event(Everyone, UpdateCall(r.call))];
    assert forall view :: Replay(view, es) == r by {
      forall view ensures Replay(view, es) == r {
        ReplayThree(view, es[0], es[1], es[2]);
      }
    }
    es
  }

  /** `llamar_paciente`. When either id is unknown nothing changes and
      nothing is emitted; otherwise the effect is `CallPatientEffect`. */
  function CallPatient(r: Room, doctorId: Id, patientId: Id): (s: Step)
    ensures !CallSucceeds(r, doctorId, patientId) ==> s == Step(r, [])
    ensures |s.next.doctors| == |r.doctors| && |s.next.patients| == |r.patients|
    ensures CallSucceeds(r, doctorId, patientId) ==> |s.emitted| == 3
    ensures ToAll(s.emitted) && Replay(r, s.emitted) == s.next
  {
    if CallSucceeds(r, doctorId, patientId) then
      var next := Attend(r, FindDoctor(r.doctors, doctorId).value, FindPatient(r.patients, patientId).value);
      Step(next, Announcement(next))
    else
      Step(r, [])
  }

  /** What a successful `llamar_paciente` does: the doctor's previous patient
      (if still listed) becomes `atendido`, the target becomes `atendiendo`
      whatever its status was (so an `atendido` patient can move back), the
      doctor's slot names the target, every other doctor and patient stays,
      the call is replaced by one built from the patient's name and the
      doctor's room and specialty, and patients, doctors and call are
      broadcast in that order. */
  lemma CallPatientEffect(r: Room, doctorId: Id, patientId: Id)
    requires CallSucceeds(r, doctorId, patientId)
    ensures
      var s := CallPatient(r, doctorId, patientId);
      var i, j := FindDoctor(r.doctors, doctorId).value, FindPatient(r.patients, patientId).value;
      var doctor, prev := r.doctors[i], Released(r, r.doctors[i]);
      && |s.next.doctors| == |r.doctors| && |s.next.patients| == |r.patients|
      && s.next.doctors[i] == doctor.(attending := Some(patientId))
      && (forall k :: 0 <= k < |r.doctors| && k != i ==> s.next.doctors[k] == r.doctors[k])
      && s.next.patients[j] == r.patients[j].(status := InProgress)
      && (prev.Some? && prev.value != j ==> s.next.patients[prev.value] == r.patients[prev.value].(status := Done))
      && (forall k :: 0 <= k < |r.patients| && k != j && prev != Some(k) ==> s.next.patients[k] == r.patients[k])
      && s.next.call == Some(Call(r.patients[j].name, doctor.room, doctor.specialty))
      && s.emitted == [Event(Everyone, UpdatePatients(s.next.patients)),
                       Event(Everyone, UpdateDoctors(s.next.doctors)),
                       Event(Everyone, UpdateCall(s.next.call))]
  {
  }

  /** The `setTimeout` callback armed by a successful call: the call is
      cleared and `null` is broadcast; doctors and patients stay as they are.
      It clears whatever call is current, not the one that armed it. */
  function Expire(r: Room): (s: Step)
    ensures s.next.doctors == r.doctors && s.next.patients == r.patients
    ensures s.next.call == None
    ensures s.emitted == [Event(Everyone, UpdateCall(None))]
    ensures ToAll(s.emitted) && Replay(r, s.emitted) == s.next
  {
    ReplayOne(r, Event(Everyone, UpdateCall(None)));
    Step(r.(call := None), [Event(Everyone, UpdateCall(None))])
  }

  /** Whether `finalizar_atencion` acts: the doctor is found and attending. */
  predicate FinishSucceeds(r: Room, doctorId: Id)
  {
    && FindDoctor(r.doctors, doctorId).Some?
    && r.doctors[FindDoctor(r.doctors, doctorId).value].attending.Some?
  }

  /** The state after doctor `i` finishes attending (lines 85-92); see
      `FinishAttendingEffect` for the effect on each record. */
  function Discharge(r: Room, i: nat): (d: Room)
    requires i < |r.doctors|
    ensures |d.doctors| == |r.doctors| && d.doctors[i].attending.None? && d.call == r.call
    ensures forall k :: 0 <= k < |d.patients| ==> d.patients[k].status != Done
  {
    Room(r.doctors[i := r.doctors[i].(attending := None)],
         Filter(ReleasePrevious(r, r.doctors[i]), StillQueued),
         r.call)
  }

  /** The two broadcasts of a finished attendance, in emission order. */
  function QueueUpdate(r: Room): (es: seq<Event>)
    ensures ToAll(es)
    ensures forall view :: Replay(view, es) == view.(doctors := r.doctors, patients := r.patients)
  {
    var es := [Event(Everyone, UpdatePatients(r.patients)), Event(Everyone, UpdateDoctors(r.doctors))];
    assert forall view :: Replay(view, es) == view.(doctors := r.doctors, patients := r.patients) by {
      forall view ensures Replay(view, es) == view.(doctors := r.doctors, patients := r.patients) {
        ReplayTwo(view, es[0], es[1]);
      }
    }
    es
  }

  /** `finalizar_atencion`. When the doctor is unknown or not attending
      nothing changes and nothing is emitted; otherwise the effect is
      `FinishAttendingEffect`. The call is never touched. */
  function FinishAttending(r: Room, doctorId: Id): (s: Step)
    ensures !FinishSucceeds(r, doctorId) ==> s == Step(r, [])
    ensures FinishSucceeds(r, doctorId) ==> |s.emitted| == 2
    ensures s.next.call == r.call
    ensures ToAll(s.emitted) && Replay(r, s.emitted) == s.next
  {
    if FinishSucceeds(r, doctorId) then
      var next := Discharge(r, FindDoctor(r.doctors, doctorId).value);
      Step(next, QueueUpdate(next))
    else
      Step(r, [])
  }

  /** What a successful `finalizar_atencion` does: the slot is emptied, the
      attended patient (if still listed) is marked `atendido`, then every
      `atendido` patient is filtered out (also those released earlier by a
      new call), so none is left; every other patient stays, in order (see
      `Seqs.FilterPlacement`). Patients then doctors are broadcast. */
  lemma FinishAttendingEffect(r: Room, doctorId: Id)
    requires FinishSucceeds(r, doctorId)
    ensures
      var s := FinishAttending(r, doctorId);
      var i := FindDoctor(r.doctors, doctorId).value;
      var found := Released(r, r.doctors[i]);
      && s.next.doctors == r.doctors[i := r.doctors[i].(attending := None)]
      && s.next.patients == Filter(ReleasePrevious(r, r.doctors[i]), StillQueued)
      && (forall k :: 0 <= k < |s.next.patients| ==> s.next.patients[k].status != Done)
      && (forall k :: 0 <= k < |r.patients| && found != Some(k) && r.patients[k].status != Done
            ==> r.patients[k] in s.next.patients)
      && (forall p :: multiset(s.next.patients)[p]
            == if p.status != Done then multiset(ReleasePrevious(r, r.doctors[i]))[p] else 0)
      && s.emitted == [Event(Everyone, UpdatePatients(s.next.patients)),
                       Event(Everyone, UpdateDoctors(s.next.doctors))]
  {
    var i := FindDoctor(r.doctors, doctorId).value;
    var found := Released(r, r.doctors[i]);
    var marked := ReleasePrevious(r, r.doctors[i]);
    FilterCounts(marked, StillQueued);
    forall k | 0 <= k < |r.patients| && found != Some(k) && r.patients[k].status != Done
      ensures r.patients[k] in Filter(marked, StillQueued)
    {
      assert marked[k] == r.patients[k];
    }
  }
}

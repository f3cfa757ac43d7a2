/** Properties that relate several handler steps, or that show where the
    server's behaviour departs from what one might expect of a waiting room. */
module Properties {
  import opened Wrappers
  import opened Seqs
  import opened Entities
  import opened Queue
  import Server

  /** `eliminar_medico` keeps the order of the doctors it keeps: the doctor
      at `k` lands right after the kept doctors that preceded it. */
  lemma RemoveDoctorKeepsOrder(r: Room, id: Id, k: nat)
    requires k < |r.doctors| && r.doctors[k].id != id
    ensures var kept := RemoveDoctor(r, id).next.doctors;
      var at := |Filter(r.doctors[..k], OtherThan(id))|;
      at < |kept| && kept[at] == r.doctors[k]
  {
    FilterPlacement(r.doctors, OtherThan(id), k);
  }

  /** `finalizar_atencion` keeps the order of the patients it keeps. */
  lemma FinishAttendingKeepsOrder(r: Room, doctorId: Id, k: nat)
    requires FinishSucceeds(r, doctorId)
    requires var marked := ReleasePrevious(r, r.doctors[FindDoctor(r.doctors, doctorId).value]);
      k < |marked| && marked[k].status != Done
    ensures var marked := ReleasePrevious(r, r.doctors[FindDoctor(r.doctors, doctorId).value]);
      var kept := FinishAttending(r, doctorId).next.patients;
      var at := |Filter(marked[..k], StillQueued)|;
      at < |kept| && kept[at] == marked[k]
  {
    var marked := ReleasePrevious(r, r.doctors[FindDoctor(r.doctors, doctorId).value]);
    FinishAttendingEffect(r, doctorId);
    FilterPlacement(marked, StillQueued, k);
  }

  /** A doctor who calls a second patient releases the first: the first is
      `atendido`, the second `atendiendo`, the slot and the call name the
      second. */
  lemma SecondCallReleasesFirst(r: Room, doctorId: Id, first: Id, second: Id)
    requires CallSucceeds(r, doctorId, first) && FindPatient(r.patients, second).Some?
    requires first != second
    ensures
      var afterFirst := CallPatient(r, doctorId, first).next;
      var afterSecond := CallPatient(afterFirst, doctorId, second).next;
      var i := FindDoctor(r.doctors, doctorId).value;
      var j1, j2 := FindPatient(r.patients, first).value, FindPatient(r.patients, second).value;
      && CallSucceeds(afterFirst, doctorId, second)
      && afterSecond.patients[j1].status == Done
      && afterSecond.patients[j2].status == InProgress
      && afterSecond.doctors[i].attending == Some(second)
      && afterSecond.call == Some(Call(r.patients[j2].name, r.doctors[i].room, r.doctors[i].specialty))
  {
    var afterFirst := CallPatient(r, doctorId, first).next;
    var i := FindDoctor(r.doctors, doctorId).value;
    var j1, j2 := FindPatient(r.patients, first).value, FindPatient(r.patients, second).value;
    CallPatientEffect(r, doctorId, first);
    FindFirstSameKeys(r.doctors, afterFirst.doctors, DoctorId, doctorId);
    FindFirstSameKeys(r.patients, afterFirst.patients, PatientId, first);
    FindFirstSameKeys(r.patients, afterFirst.patients, PatientId, second);
    assert j1 != j2;
    assert afterFirst.doctors[i].attending == Some(first);
    assert Released(afterFirst, afterFirst.doctors[i]) == Some(j1);
    CallPatientEffect(afterFirst, doctorId, second);
  }

  /** The doctor's slot can name a patient who is no longer listed: two
      doctors call the same patient, and the second one finishes. */
  lemma AttendingMayDangle()
    ensures
      var r := Room([Doctor("med-1", "A", "Cardio", "101", None), Doctor("med-2", "B", "Trauma", "102", None)],
                    [Patient("pac-1", "Bob", Waiting)], None);
      var s1 := CallPatient(r, "med-1", "pac-1").next;
      var s2 := CallPatient(s1, "med-2", "pac-1").next;
      var s3 := FinishAttending(s2, "med-2").next;
      && s3.doctors[0].attending == Some("pac-1")
      && FindPatient(s3.patients, "pac-1").None?
  {
    var r := Room([Doctor("med-1", "A", "Cardio", "101", None), Doctor("med-2", "B", "Trauma", "102", None)],
                  [Patient("pac-1", "Bob", Waiting)], None);
    assert FindDoctor(r.doctors, "med-1") == Some(0);
    assert FindPatient(r.patients, "pac-1") == Some(0);
    CallPatientEffect(r, "med-1", "pac-1");
    var s1 := CallPatient(r, "med-1", "pac-1").next;
    assert s1.doctors == [Doctor("med-1", "A", "Cardio", "101", Some("pac-1")), Doctor("med-2", "B", "Trauma", "102", None)];
    assert s1.patients == [Patient("pac-1", "Bob", InProgress)];
    assert FindDoctor(s1.doctors, "med-2") == Some(1);
    assert FindPatient(s1.patients, "pac-1") == Some(0);
    CallPatientEffect(s1, "med-2", "pac-1");
    var s2 := CallPatient(s1, "med-2", "pac-1").next;
    assert s2.doctors[1].attending == Some("pac-1");
    assert s2.patients == [Patient("pac-1", "Bob", InProgress)];
    assert FindDoctor(s2.doctors, "med-2") == Some(1);
    FinishAttendingEffect(s2, "med-2");
    var s3 := FinishAttending(s2, "med-2").next;
    assert s3.patients == [];
  }

  /** A patient already `atendido` goes back to `atendiendo` when called. */
  lemma StatusMayGoBack(r: Room, doctorId: Id, patientId: Id)
    requires CallSucceeds(r, doctorId, patientId)
    requires r.patients[FindPatient(r.patients, patientId).value].status == Done
    ensures CallPatient(r, doctorId, patientId).next.patients[FindPatient(r.patients, patientId).value].status == InProgress
  {
    CallPatientEffect(r, doctorId, patientId);
  }

  /** The walk-through of a clinic: a doctor is added, a patient registered
      and called; the display shows the call, and after the timer fires the
      call is gone while the patient is still being attended. */
  lemma ClinicWalkThrough()
    ensures
      var s1 := AddDoctor(Initial, "med-1", "Dr. A", "Cardio", "101");
      var s2 := RegisterPatient(s1.next, "pac-1", "Bob");
      var s3 := CallPatient(s2.next, "med-1", "pac-1");
      var s4 := Expire(s3.next);
      && s3.emitted[2] == Event(Everyone, UpdateCall(Some(Call("Bob", "101", "Cardio"))))
      && s4.emitted == [Event(Everyone, UpdateCall(None))]
      && s4.next.patients == [Patient("pac-1", "Bob", InProgress)]
      && s4.next.doctors[0].attending == Some("pac-1")
  {
  }

  /** The timer of a call is never cancelled: after a doctor calls two
      patients, the first call's timer fires while the second call is on
      display and clears it, with the second call's timer still pending and
      doctors and patients left as the second call made them. */
  method StaleTimerClearsNewerCall(room: Server.WaitingRoom, doctorId: Id, first: Id, second: Id)
    requires room.Valid()
    requires CallSucceeds(room.State(), doctorId, first) && FindPatient(room.patients, second).Some?
    requires first != second
    modifies room
    ensures room.Valid() && room.call == None
    ensures room.pendingTimers == old(room.pendingTimers) + 1
    ensures var afterFirst := CallPatient(old(room.State()), doctorId, first).next;
      var afterSecond := CallPatient(afterFirst, doctorId, second).next;
      room.doctors == afterSecond.doctors && room.patients == afterSecond.patients
  {
    SecondCallReleasesFirst(room.State(), doctorId, first, second);
    room.CallPatient(doctorId, first);
    room.CallPatient(doctorId, second);
    assert room.call.Some? && room.pendingTimers == old(room.pendingTimers) + 2;
    room.Expire();
  }
}

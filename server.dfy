/** The server process of servidor.js: the module-level state updated in
    place by the socket handlers, and the log of everything emitted. */
module Server {
  import opened Wrappers
  import opened Seqs
  import opened Entities
  import opened Broadcast
  import Queue

  class WaitingRoom {
    /** `medicos` */
    var doctors: seq<Doctor>
    /** `pacientes` */
    var patients: seq<Patient>
    /** `llamadoActual` */
    var call: Option<Call>
    /** Every `io.emit` and `socket.emit`, in order. */
    var outbox: seq<Event>
    /** The `setTimeout` callbacks armed by successful calls that have not
        fired yet. */
    var pendingTimers: nat

    function State(): Room
      reads this
    {
      Room(doctors, patients, call)
    }

    /** A client connected since start-up, which has received every
        broadcast, holds exactly the server's state; and a call on display
        always has a timer pending that will clear it. */
    ghost predicate Valid()
      reads this
    {
      && Replay(Initial, Broadcasts(outbox)) == State()
      && (call.Some? ==> pendingTimers > 0)
    }

    /** Lines 19-21: empty lists, no call, nothing emitted yet. */
    constructor ()
      ensures Valid()
      ensures State() == Initial && outbox == [] && pendingTimers == 0
    {
      doctors, patients, call := [], [], None;
      outbox, pendingTimers := [], 0;
    }

    method Emit(to: Audience, m: Message)
      modifies this
      ensures outbox == old(outbox) + [Event(to, m)]
      ensures State() == old(State()) && pendingTimers == old(pendingTimers)
    {
      outbox := outbox + [Event(to, m)];
    }

    /** The `connection` handler: the current doctors, patients and call are
        sent to the new client alone; no state changes. */
    method Connect()
      requires Valid()
      modifies this
      ensures Valid()
      ensures State() == old(State()) && pendingTimers == old(pendingTimers)
      ensures outbox == old(outbox) + Snapshot(State())
    {
      ghost var before := outbox;
      Emit(Caller, UpdateDoctors(doctors));
      Emit(Caller, UpdatePatients(patients));
      Emit(Caller, UpdateCall(call));
      assert outbox == before + Snapshot(State());
      SnapshotKeepsSync(before, State());
    }

    /** `agregar_medico`, with the fresh id passed in. */
    method AddDoctor(id: Id, name: string, specialty: string, room: string)
      requires Valid()
      modifies this
      ensures Valid() && pendingTimers == old(pendingTimers)
      ensures var s := Queue.AddDoctor(old(State()), id, name, specialty, room);
        State() == s.next && outbox == old(outbox) + s.emitted
    {
      ghost var s := Queue.AddDoctor(State(), id, name, specialty, room);
      ghost var before := outbox;
      doctors := doctors + [Doctor(id, name, specialty, room, None)];
      Emit(Everyone, UpdateDoctors(doctors));
      BroadcastKeepsSync(before, old(State()), s.emitted, s.next);
    }

    /** `eliminar_medico` */
    method RemoveDoctor(id: Id)
      requires Valid()
      modifies this
      ensures Valid() && pendingTimers == old(pendingTimers)
      ensures var s := Queue.RemoveDoctor(old(State()), id);
        State() == s.next && outbox == old(outbox) + s.emitted
    {
      ghost var s := Queue.RemoveDoctor(State(), id);
      ghost var before := outbox;
      doctors := Filter(doctors, Queue.OtherThan(id));
      Emit(Everyone, UpdateDoctors(doctors));
      BroadcastKeepsSync(before, old(State()), s.emitted, s.next);
    }

    /** `registrar_paciente`, with the fresh id passed in. */
    method RegisterPatient(id: Id, name: string)
      requires Valid()
      modifies this
      ensures Valid() && pendingTimers == old(pendingTimers)
      ensures var s := Queue.RegisterPatient(old(State()), id, name);
        State() == s.next && outbox == old(outbox) + s.emitted
    {
      ghost var s := Queue.RegisterPatient(State(), id, name);
      ghost var before := outbox;
      patients := patients + [Patient(id, name, Waiting)];
      Emit(Everyone, UpdatePatients(patients));
      BroadcastKeepsSync(before, old(State()), s.emitted, s.next);
    }

    /** `llamar_paciente`; a successful call also arms one more timer. */
    method CallPatient(doctorId: Id, patientId: Id)
      requires Valid()
      modifies this
      ensures Valid()
      ensures var s := Queue.CallPatient(old(State()), doctorId, patientId);
        State() == s.next && outbox == old(outbox) + s.emitted
      ensures pendingTimers == old(pendingTimers) + (if Queue.CallSucceeds(old(State()), doctorId, patientId) then 1 else 0)
    {
      ghost var s := Queue.CallPatient(State(), doctorId, patientId);
      ghost var before := outbox;
      var doctorAt := Queue.FindDoctor(doctors, doctorId);
      var patientAt := Queue.FindPatient(patients, patientId);
      if doctorAt.Some? && patientAt.Some? {
        Attend(doctorAt.value, patientAt.value);
        pendingTimers := pendingTimers + 1;
      }
      BroadcastKeepsSync(before, old(State()), s.emitted, s.next);
    }

    /** The body of a successful `llamar_paciente` (lines 55-73), for the
        doctor at `i` and the patient at `j`. */
    method Attend(i: nat, j: nat)
      requires i < |doctors| && j < |patients|
      modifies this
      ensures State() == Queue.Attend(old(State()), i, j)
      ensures outbox == old(outbox) + Queue.Announcement(State())
      ensures pendingTimers == old(pendingTimers)
    {
      var doctor := doctors[i];
      if doctor.attending.Some? {
        var previous := Queue.FindPatient(patients, doctor.attending.value);
        if previous.Some? {
          patients := Queue.Mark(patients, previous.value, Done);
        }
      }
      assert patients == Queue.ReleasePrevious(old(State()), doctor);
      patients := Queue.Mark(patients, j, InProgress);
      doctors := doctors[i := doctor.(attending := Some(patients[j].id))];
      call := Some(Call(patients[j].name, doctor.room, doctor.specialty));
      assert State() == Queue.Attend(old(State()), i, j);
      ghost var sent := outbox;
      Emit(Everyone, UpdatePatients(patients));
      Emit(Everyone, UpdateDoctors(doctors));
      Emit(Everyone, UpdateCall(call));
      assert outbox == sent + Queue.Announcement(State());
    }

    /** The `setTimeout` callback of an earlier successful call firing: the
        event loop runs it only when one is armed. */
    method Expire()
      requires Valid() && pendingTimers > 0
      modifies this
      ensures Valid() && pendingTimers == old(pendingTimers) - 1
      ensures var s := Queue.Expire(old(State()));
        State() == s.next && outbox == old(outbox) + s.emitted
    {
      ghost var s := Queue.Expire(State());
      ghost var before := outbox;
      call := None;
      Emit(Everyone, UpdateCall(None));
      pendingTimers := pendingTimers - 1;
      BroadcastKeepsSync(before, old(State()), s.emitted, s.next);
    }

    /** `finalizar_atencion` */
    method FinishAttending(doctorId: Id)
      requires Valid()
      modifies this
      ensures Valid() && pendingTimers == old(pendingTimers)
      ensures var s := Queue.FinishAttending(old(State()), doctorId);
        State() == s.next && outbox == old(outbox) + s.emitted
    {
      ghost var s := Queue.FinishAttending(State(), doctorId);
      ghost var before := outbox;
      var doctorAt := Queue.FindDoctor(doctors, doctorId);
      if doctorAt.Some? && doctors[doctorAt.value].attending.Some? {
        Discharge(doctorAt.value);
      }
      BroadcastKeepsSync(before, old(State()), s.emitted, s.next);
    }

    /** The body of `finalizar_atencion` for an attending doctor at `i`
        (lines 85-95). */
    method Discharge(i: nat)
      requires i < |doctors|
      modifies this
      ensures State() == Queue.Discharge(old(State()), i)
      ensures outbox == old(outbox) + Queue.QueueUpdate(State())
      ensures pendingTimers == old(pendingTimers)
    {
      if doctors[i].attending.Some? {
        var attended := Queue.FindPatient(patients, doctors[i].attending.value);
        if attended.Some? {
          patients := Queue.Mark(patients, attended.value, Done);
        }
      }
      assert patients == Queue.ReleasePrevious(old(State()), doctors[i]);
      doctors := doctors[i := doctors[i].(attending := None)];
      patients := Filter(patients, Queue.StillQueued);
      ghost var sent := outbox;
      Emit(Everyone, UpdatePatients(patients));
      Emit(Everyone, UpdateDoctors(doctors));
      assert outbox == sent + Queue.QueueUpdate(State());
    }
  }
}

/** The records the waiting-room server keeps in memory and sends to its
    clients. `id`s are the strings the server stamps (`med-…`, `pac-…`);
    names and rooms are the free text the clients submit. */
module Entities {
  import opened Wrappers

  type Id = string

  /** A patient's `status`: `en_espera`, `atendiendo`, `atendido`. */
  datatype Status = Waiting | InProgress | Done

  /** A doctor (`medico`). `attending` is the id of the patient held in the
      `atendiendo` slot: the source keeps the patient object there but only
      ever reads back its `id`. */
  datatype Doctor = Doctor(id: Id, name: string, specialty: string, room: string, attending: Option<Id>)

  /** A patient (`paciente`) in the queue. */
  datatype Patient = Patient(id: Id, name: string, status: Status)

  /** The current call (`llamadoActual`): a copy of the patient's name and
      the doctor's room (`consultorio`) and specialty (`especialidad`). */
  datatype Call = Call(patientName: string, room: string, specialty: string)

  /** The three pieces of module-level state, as one value. */
  datatype Room = Room(doctors: seq<Doctor>, patients: seq<Patient>, call: Option<Call>)

  /** The state at start-up: no doctors, no patients, no call. */
  const Initial := Room([], [], None)

  /** Who an emission goes to: `io.emit` reaches every connected client,
      `socket.emit` only the client that just connected. */
  datatype Audience = Everyone | Caller

  /** The three server-to-client messages, each a full snapshot of one piece
      of state: `update_medicos`, `update_pacientes`, `update_llamado`. */
  datatype Message =
    | UpdateDoctors(doctors: seq<Doctor>)
    | UpdatePatients(patients: seq<Patient>)
    | UpdateCall(call: Option<Call>)

  datatype Event = Event(to: Audience, msg: Message)

  function DoctorId(d: Doctor): Id { d.id }

  function PatientId(p: Patient): Id { p.id }
}

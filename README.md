# Waiting-room server: a verified model

The server of this clinic waiting room keeps three pieces of state in memory:
the doctors (`medicos`), each with an `atendiendo` slot naming the patient they
are seeing; the patients (`pacientes`), each `en_espera`, `atendiendo` or
`atendido`; and the current call shown on the waiting-room screen
(`llamadoActual`, or `null`). Clients send five events (`agregar_medico`,
`eliminar_medico`, `registrar_paciente`, `llamar_paciente`,
`finalizar_atencion`), and after each change the server broadcasts full
snapshots (`update_medicos`, `update_pacientes`, `update_llamado`). A client
that connects gets the three snapshots for itself. A successful call arms a
15-second timer that clears the call.

The model:

- `wrappers.dfy`: `Option`, for `null` and for a `find` that matches nothing.
- `seqs.dfy` (module `Seqs`): `find` by id as `FindFirst`, which gives the
  index of the first match, and `filter` as `Filter`, with lemmas about both.
- `entities.dfy` (module `Entities`): doctors, patients, the call, the state as
  one value (`Room`), and the emitted events. Each event records whether it
  went to every client (`io.emit`) or only to the one connecting
  (`socket.emit`).
- `broadcast.dfy` (module `Broadcast`): what the snapshots do to a client's
  copy of the state. `Replay` folds the events over that copy, and `Snapshot`
  gives the three events sent on connection. The lemmas show that broadcasts
  keep every client in step with the server, and that a client joining late
  ends up with the same state as one connected since start-up.
- `queue.dfy` (module `Queue`): one pure step function per handler. Each
  gives the next state and the events emitted, in order. These are the
  reference definitions.
- `server.dfy` (module `Server`): the class `WaitingRoom`. Its fields are
  `doctors`, `patients`, `call`, `outbox` (the log of everything emitted) and
  `pendingTimers` (armed `setTimeout` callbacks that have not fired). It has
  one method per handler. Each method updates the fields step by step, as the
  handler does, and is proved to yield exactly the step function's state and
  emissions. Every handler method (`Connect`, `AddDoctor`, `RemoveDoctor`,
  `RegisterPatient`, `CallPatient`, `Expire`, `FinishAttending`) keeps
  `Valid()`: a client that received every broadcast holds the server's
  state, and a call on display always has a pending timer that will clear
  it. The helpers `Emit`, `Attend` and `Discharge` run inside a handler and
  neither require nor ensure `Valid()`; `Attend`, and `Emit` of an event to
  every client, can leave it false until the handler finishes.
- `properties.dfy` (module `Properties`): properties that span several steps.

Fresh ids (`Date.now()`) are parameters of `AddDoctor` and
`RegisterPatient`. No id is assumed to be unique. Lookups take the first
match, as `find` does, and the filter in `eliminar_medico` drops every entry
with that id. The timer is not tied to a clock: `Expire` is the callback
firing, and the event loop may run it only while a timer is pending.

The model follows the code where a stricter reading of the system might
expect otherwise:

- removing a doctor leaves every patient as it was, including waiting
  patients and the one that doctor was attending;
- the timer is never cancelled, so the timer of an earlier call also clears
  a later call (`Properties.StaleTimerClearsNewerCall`);
- calling a patient does not look at its status, so an `atendido` patient
  can go back to `atendiendo` (`Properties.StatusMayGoBack`);
- a doctor's slot may name a patient who is no longer listed
  (`Properties.AttendingMayDangle`), so "the attended patient exists and is
  `atendiendo`" is not an invariant of this server;
- `finalizar_atencion` drops every `atendido` patient, including ones that
  a later call released from some other doctor.

## Model

| member | source | states |
|---|---|---|
| `Seqs.FindFirst` | servidor.js:51-52 | `find` by id: an index whose key is the id and before which no key is the id, or `None` exactly when no element has the id |
| `Seqs.Filter` | servidor.js:92 | `filter`: no longer than the input; every result element is an input element satisfying the predicate, and every satisfying input element is in the result |
| `Seqs.FilterCounts` | servidor.js:39 | `filter` keeps every passing element exactly as many times as the input has it, and no failing element |
| `Seqs.FindFirstSameKeys` | servidor.js:57 | two lists with the same ids position by position give the same `find` result, so status updates never change what a later lookup finds |
| `Seqs.FilterConcat` | servidor.js:39 | filtering distributes over concatenation |
| `Seqs.FilterKeepsAll` | servidor.js:39 | when every element passes, the filter returns the list unchanged |
| `Seqs.FilterPlacement` | servidor.js:92 | order is kept: an element that passes sits in the result right after the elements kept from before it |
| `Broadcast.Snapshot` | servidor.js:27-29 | three messages (doctors, patients, call, in that order), all to the connecting client only, which bring any client copy, however stale, to the state sent |
| `Broadcast.JoinOverridesView` | servidor.js:27-29 | after the connection snapshot, a client's state depends only on the snapshot and on what follows it, whatever it held before |
| `Broadcast.BroadcastKeepsSync` | servidor.js:35 | if the broadcasts so far bring a fresh client to state r, and a handler emits to everyone messages taking r to its next state, then the extended log brings a fresh client to that next state |
| `Broadcast.SnapshotKeepsSync` | servidor.js:27-29 | the connection snapshot goes to the new client alone, so what every other client has seen is unchanged |
| `Broadcast.LateJoinerConverges` | servidor.js:23-29 | a client that joins at any point of the log gets the snapshot and then the later broadcasts, and ends up with the same state as a client connected since start-up |
| `Queue.AddDoctor` | servidor.js:33-36 | exactly one doctor is appended, with the given id, name, specialty and room and an empty slot; the existing doctors, the patients and the call are unchanged; one `update_medicos` with the new list goes to everyone and brings clients to the new state |
| `Queue.RemoveDoctor` | servidor.js:38-41 | the new doctors are exactly the old ones whose id differs, in both directions, each as many times as before and none of that id (with order kept by `Properties.RemoveDoctorKeepsOrder`); an unknown id leaves the list equal; patients and call are untouched; `update_medicos` is broadcast either way |
| `Queue.UnknownDoctorKept` | servidor.js:39 | removing an id that no doctor has leaves the doctor list as it was |
| `Queue.RegisterPatient` | servidor.js:45-48 | exactly one patient is appended, with the given id and name, `en_espera`; doctors and call are unchanged; one `update_pacientes` goes to everyone |
| `Queue.CallPatient` | servidor.js:50-54 | when the doctor id or the patient id is unknown there is no state change and nothing is emitted; otherwise no record is added or removed and three broadcasts bring clients to the new state |
| `Queue.CallPatientEffect` | servidor.js:55-73 | on success: the target becomes `atendiendo`; the doctor's slot names it; the previously attended patient, if listed and not the target, becomes `atendido`; every other doctor and patient is unchanged; the call is the patient's name with the doctor's room and specialty; patients, doctors, call are emitted in that order |
| `Queue.ReleasePrevious` | servidor.js:56-58 | the patient list with the first patient whose id is in the doctor's slot, if listed, marked `atendido`; every other patient and the length unchanged (used again at lines 85-88) |
| `Queue.Attend` | servidor.js:55-69 | the state after a successful call: no record added or removed, the slot names the target, the target is `atendiendo`, the call is built from the patient and the doctor; `Queue.CallPatientEffect` gives every record |
| `Queue.Announcement` | servidor.js:71-73 | the three broadcasts of a call go to everyone and bring any client copy to the new state |
| `Queue.Expire` | servidor.js:75-78 | the call becomes `null`, `update_llamado(null)` is broadcast, doctors and patients are untouched |
| `Queue.FinishAttending` | servidor.js:82-84 | when the doctor is unknown or not attending nothing changes and nothing is emitted; the call is never touched; on success two broadcasts bring clients to the new state |
| `Queue.Discharge` | servidor.js:85-92 | the state after a finished attendance: the slot is empty, no `atendido` patient is left, the call is kept; `Queue.FinishAttendingEffect` gives every record |
| `Queue.QueueUpdate` | servidor.js:94-95 | the two broadcasts of a finished attendance go to everyone and replace a client's patients and doctors, leaving its call as it was |
| `Queue.FinishAttendingEffect` | servidor.js:85-95 | on success: the doctor's slot is emptied; the patients are exactly the old list with the attended one marked `atendido`, then filtered; no `atendido` patient remains; every other patient not already `atendido` stays, each as many times as before; patients then doctors are emitted |
| `Server.WaitingRoom.constructor` | servidor.js:19-21 | empty doctors and patients, no call, nothing emitted, no timer pending |
| `Server.WaitingRoom.Emit` | servidor.js:35 | one `io.emit` or `socket.emit`: the event is appended to the log and nothing else changes |
| `Server.WaitingRoom.Connect` | servidor.js:27-29 | no state change; the current doctors, patients and call are appended to the log for the connecting client only, in that order |
| `Server.WaitingRoom.AddDoctor` | servidor.js:33-36 | the new state and log are those of `Queue.AddDoctor`; `Valid()` is kept |
| `Server.WaitingRoom.RemoveDoctor` | servidor.js:38-41 | the new state and log are those of `Queue.RemoveDoctor`; `Valid()` is kept |
| `Server.WaitingRoom.RegisterPatient` | servidor.js:45-48 | the new state and log are those of `Queue.RegisterPatient`; `Valid()` is kept |
| `Server.WaitingRoom.CallPatient` | servidor.js:50-80 | the new state and log are those of `Queue.CallPatient`; one more timer is pending exactly when the call succeeds; `Valid()` is kept |
| `Server.WaitingRoom.Attend` | servidor.js:55-73 | the in-place updates of a successful call give the state of `Queue.Attend`, followed by its three broadcasts |
| `Server.WaitingRoom.Expire` | servidor.js:75-78 | runs only while a timer is pending; the new state and log are those of `Queue.Expire`; one timer fewer is pending; `Valid()` is kept |
| `Server.WaitingRoom.FinishAttending` | servidor.js:82-97 | the new state and log are those of `Queue.FinishAttending`; `Valid()` is kept |
| `Server.WaitingRoom.Discharge` | servidor.js:85-95 | the in-place updates of a successful `finalizar_atencion` give the state of `Queue.Discharge`, followed by its two broadcasts |
| `Properties.RemoveDoctorKeepsOrder` | servidor.js:39 | a doctor kept by `eliminar_medico` sits right after the kept doctors that preceded it |
| `Properties.FinishAttendingKeepsOrder` | servidor.js:92 | a patient kept by `finalizar_atencion` sits right after the kept patients that preceded it |
| `Properties.SecondCallReleasesFirst` | servidor.js:55-73 | when a doctor calls a second, different patient, the first becomes `atendido`, the second `atendiendo`, the slot and the call name the second |
| `Properties.StaleTimerClearsNewerCall` | servidor.js:75-78 | on the class: after a doctor calls two patients, the first call's timer fires and clears the second call, one timer is still pending, and doctors and patients stay as the second call left them |
| `Properties.AttendingMayDangle` | servidor.js:57-92 | two doctors call the same patient and the second finishes: the first doctor's slot still names a patient who is no longer listed |
| `Properties.StatusMayGoBack` | servidor.js:62 | calling an `atendido` patient makes it `atendiendo` again |
| `Properties.ClinicWalkThrough` | servidor.js:33-78 | add a doctor, register a patient and call them: the call broadcast names the patient, the doctor's room and specialty; after expiry the call is `null` and the patient is still `atendiendo` |

## Left out

- Static file serving and the `/` redirect (servidor.js:12-16): HTTP plumbing.
- `getLocalIpAddress` and the start-up logging of `server.listen` (servidor.js:107-125): network-interface lookup and console output.
- The socket.io transport, the console logging on connection, and the `disconnect` handler (servidor.js:23-24, 100-102). Emissions are appended to `outbox`; delivery to each client is not modelled. The convergence lemmas describe a client that receives what is addressed to it, in order.
- Real time: the 15-second delay is not modelled. `Expire` is the callback firing, allowed while a timer is pending. The model does not track which call armed which timer, or in what order timers fire. That order makes no difference, because every callback does the same thing.
- `Date.now()` ids: the id is a parameter. In the source a client payload carrying its own `id` field overrides the generated one (`{ id, ...payload }`), and the parameter stands for whichever id ends up in the record.
- Payload fields beyond name, specialty and room (doctors) and name (patients), which the object spread copies but no handler reads.
- The `atendiendo` slot holds the patient object in the source, so `update_medicos` carries that patient's fields. The model keeps only the id, which is all the handlers read back.
- Malformed payloads, such as a `llamar_paciente` with no payload (the destructuring throws) or non-string ids: every payload is taken to be well-formed.

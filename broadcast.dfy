/** What the emitted messages do to a client: every message replaces one
    piece of the client's copy of the state. */
module Broadcast {
  import opened Seqs
  import opened Entities

  /** A client's copy of the state after it receives message `m`. */
  function Apply(view: Room, m: Message): Room
  {
    match m
    case UpdateDoctors(ds) => view.(doctors := ds)
    case UpdatePatients(ps) => view.(patients := ps)
    case UpdateCall(c) => view.(call := c)
  }

  /** A client's copy of the state after it receives `log`, in order. */
  function Replay(view: Room, log: seq<Event>): Room
    decreases |log|
  {
    if |log| == 0 then view else Replay(Apply(view, log[0].msg), log[1..])
  }

  function ToEveryone(e: Event): bool { e.to == Everyone }

  /** Every event of `es` goes out with `io.emit`, to every client. */
  ghost predicate ToAll(es: seq<Event>)
  {
    forall k :: 0 <= k < |es| ==> es[k].to == Everyone
  }

  /** The part of the server's emissions that every connected client receives. */
  function Broadcasts(log: seq<Event>): seq<Event> { Filter(log, ToEveryone) }

  /** The messages sent to a client as it connects: doctors, patients, call. */
  function Snapshot(r: Room): (es: seq<Event>)
    ensures |es| == 3
    ensures es[0].msg.UpdateDoctors? && es[1].msg.UpdatePatients? && es[2].msg.UpdateCall?
    ensures forall k :: 0 <= k < |es| ==> es[k].to == Caller
    ensures forall view :: Replay(view, es) == r
  {
    var es := [Event(Caller, UpdateDoctors(r.doctors)), Event(Caller, UpdatePatients(r.patients)),
               Event(Caller, UpdateCall(r.call))];
    assert forall view :: Replay(view, es) == r by {
      forall view ensures Replay(view, es) == r {
        ReplayThree(view, es[0], es[1], es[2]);
      }
    }
    es
  }

  lemma ReplayOne(view: Room, a: Event)
    ensures Replay(view, [a]) == Apply(view, a.msg)
  {
    assert [a][1..] == [];
  }

  lemma ReplayTwo(view: Room, a: Event, b: Event)
    ensures Replay(view, [a, b]) == Apply(Apply(view, a.msg), b.msg)
  {
    assert [a, b][1..] == [b];
    ReplayOne(Apply(view, a.msg), b);
  }

  lemma ReplayThree(view: Room, a: Event, b: Event, c: Event)
    ensures Replay(view, [a, b, c]) == Apply(Apply(Apply(view, a.msg), b.msg), c.msg)
  {
    assert [a, b, c][1..] == [b, c];
    ReplayTwo(Apply(view, a.msg), b, c);
  }

  lemma {:induction false} ReplayAppend(view: Room, a: seq<Event>, b: seq<Event>)
    ensures Replay(view, a + b) == Replay(Replay(view, a), b)
    decreases |a|
  {
    if |a| == 0 {
      assert a + b == b;
    } else {
      assert (a + b)[0] == a[0];
      assert (a + b)[1..] == a[1..] + b;
      ReplayAppend(Apply(view, a[0].msg), a[1..], b);
    }
  }

  /** A snapshot brings any client, however stale, to the snapshotted state;
      what it sees afterwards is all that matters. */
  lemma JoinOverridesView(view: Room, r: Room, later: seq<Event>)
    ensures Replay(view, Snapshot(r) + later) == Replay(r, later)
  {
    ReplayAppend(view, Snapshot(r), later);
  }

  /** The server appends `emitted`, all of it to every client, and those
      messages take a client that held `r` to `next`: clients that have seen
      every broadcast since start-up still hold the server's state. */
  lemma BroadcastKeepsSync(log: seq<Event>, r: Room, emitted: seq<Event>, next: Room)
    requires Replay(Initial, Broadcasts(log)) == r
    requires ToAll(emitted)
    requires Replay(r, emitted) == next
    ensures Replay(Initial, Broadcasts(log + emitted)) == next
  {
    FilterConcat(log, emitted, ToEveryone);
    FilterKeepsAll(emitted, ToEveryone);
    ReplayAppend(Initial, Broadcasts(log), emitted);
  }

  /** Messages sent to the connecting client alone leave every other
      client's view as it was. */
  lemma SnapshotKeepsSync(log: seq<Event>, r: Room)
    requires Replay(Initial, Broadcasts(log)) == r
    ensures Replay(Initial, Broadcasts(log + Snapshot(r))) == r
  {
    var es := Snapshot(r);
    FilterConcat(log, es, ToEveryone);
    assert Broadcasts(es) == [] by {
      assert es[1..][1..][1..] == [];
    }
    assert Broadcasts(log + es) == Broadcasts(log);
  }

  /** A client that joins at position `k` of the log, and so gets a snapshot
      of the state broadcast so far and then every later broadcast, ends up
      with the same state as a client connected since start-up. */
  lemma LateJoinerConverges(log: seq<Event>, k: nat, view: Room)
    requires k <= |log|
    ensures Replay(view, Snapshot(Replay(Initial, Broadcasts(log[..k]))) + Broadcasts(log[k..]))
         == Replay(Initial, Broadcasts(log))
  {
    var before := Replay(Initial, Broadcasts(log[..k]));
    JoinOverridesView(view, before, Broadcasts(log[k..]));
    assert log == log[..k] + log[k..];
    FilterConcat(log[..k], log[k..], ToEveryone);
    ReplayAppend(Initial, Broadcasts(log[..k]), Broadcasts(log[k..]));
  }
}

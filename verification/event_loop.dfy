/**
  The translator's driver: the per-record handler and the event loop that
  drains every buffered keyboard record and then writes one sync marker.

  The loop of the program never ends; here it runs over a finite sequence of
  batches, one batch per wake-up of the keyboard. A fatal record stops the
  process, so the model's outcome is either still running, with the sink's
  state, or aborted; in both cases it carries every record written to the
  emulated device so far.
 */
module EventLoop {
  import opened InputCodes
  import opened Gamepad

  datatype Outcome =
    | Running(pad: Pad, trace: seq<Event>)
    | Aborted(trace: seq<Event>)

  /** An EV_KEY record whose value is not a press state stops the process. */
  predicate Fatal(ev: Event)
  {
    ev.kind == EV_KEY && !(0 <= ev.value <= 2)
  }

  /** Some record of a batch is fatal. */
  predicate HasFatal(evs: seq<Event>)
  {
    exists i :: 0 <= i < |evs| && Fatal(evs[i])
  }

  /** Number of sync markers in a sequence of written records. */
  function SyncCount(t: seq<Event>): nat
  {
    if t == [] then 0
    else SyncCount(t[..|t| - 1]) + (if t[|t| - 1].kind == EV_SYN then 1 else 0)
  }

  /** The outcome `o`, reached after `t` had already been written. */
  function Prepend(t: seq<Event>, o: Outcome): (r: Outcome)
    ensures r.trace == t + o.trace
    ensures r.Running? <==> o.Running?
    ensures r.Running? ==> r.pad == o.pad
  {
    match o
    case Running(q, u) => Running(q, t + u)
    case Aborted(u) => Aborted(t + u)
  }

  /** One keyboard record. Anything but a key record is ignored; a key record
      with a value outside 0..=2 is fatal; otherwise the button table is
      consulted first and the stick table only when it has no entry. */
  function HandlePress(ev: Event, p: Pad): (r: Outcome)
    ensures r.Aborted? <==> Fatal(ev)
    ensures r.Aborted? ==> r.trace == []
    ensures ev.kind != EV_KEY ==> r == Running(p, [])
    ensures |r.trace| <= 1
    ensures forall e <- r.trace :: e.kind != EV_SYN
    ensures ev.kind == EV_KEY && !Fatal(ev) && MapButton(ev.code).Some? ==>
      r == Running(p, [Event(EV_KEY, ButtonCode(MapButton(ev.code).value), ev.value)])
    ensures ev.kind == EV_KEY && !Fatal(ev) && MapButton(ev.code).None? ==>
      match MapStick(ev.code, ButtonStateFrom(ev.value).value)
      case None => r == Running(p, [])
      case Some(a) =>
        && r.Running?
        && Get(r.pad, a.axis) == Next(Get(p, a.axis), a.level)
        && Get(r.pad, Other(a.axis)) == Get(p, Other(a.axis))
        && r.trace == [Event(EV_ABS, AxisCode(a.axis), LevelValue(Get(r.pad, a.axis)))]
  {
    if ev.kind != EV_KEY then Running(p, [])
    else if !(0 <= ev.value <= 2) then Aborted([])
    else
      var state := ButtonStateFrom(ev.value).value;
      match MapButton(ev.code)
      case Some(b) => Running(p, [ButtonRecord(b, state)])
      case None =>
        match MapStick(ev.code, state)
        case Some(a) =>
          var (q, e) := StickActionEffect(p, a);
          Running(q, [e])
        case None => Running(p, [])
  }

  /** Handles the records of one batch in order, stopping at a fatal one. */
  function Drain(evs: seq<Event>, p: Pad): (r: Outcome)
    ensures r.Aborted? <==> HasFatal(evs)
    ensures |r.trace| <= |evs|
    ensures forall e <- r.trace :: e.kind != EV_SYN
    decreases |evs|
  {
    if evs == [] then Running(p, [])
    else
      match HandlePress(evs[0], p)
      case Aborted(t) => Aborted(t)
      case Running(q, t) =>
        var r := Prepend(t, Drain(evs[1..], q));
        assert forall i :: 0 < i < |evs| ==> evs[i] == evs[1..][i - 1];
        r
  }

  /** One wake-up of the loop: drain the batch, then write one sync marker. */
  function ProcessBatch(evs: seq<Event>, p: Pad): (r: Outcome)
    ensures r.Aborted? <==> HasFatal(evs)
    ensures r.Running? ==>
      && 0 < |r.trace| <= |evs| + 1
      && r.trace[|r.trace| - 1] == SyncRecord
      && forall i :: 0 <= i < |r.trace| - 1 ==> r.trace[i].kind != EV_SYN
    ensures r.Aborted? ==> forall e <- r.trace :: e.kind != EV_SYN
  {
    match Drain(evs, p)
    case Running(q, t) =>
      assert forall i :: 0 <= i < |t| ==> t[i] in t;
      Running(q, t + [SyncRecord])
    case Aborted(t) => Aborted(t)
  }

  /** The event loop over a finite run of batches; the sink's state carries
      over from one batch to the next. */
  function Run(batches: seq<seq<Event>>, p: Pad): (r: Outcome)
    ensures r.Aborted? <==> exists b :: 0 <= b < |batches| && HasFatal(batches[b])
    decreases |batches|
  {
    if batches == [] then Running(p, [])
    else
      match ProcessBatch(batches[0], p)
      case Aborted(t) => Aborted(t)
      case Running(q, t) =>
        var rest := Run(batches[1..], q);
        assert forall b :: 0 < b < |batches| ==> batches[b] == batches[1..][b - 1];
        Prepend(t, rest)
  }

  /** A run that keeps going writes exactly one sync marker per batch; one
      that aborts has written fewer sync markers than it was given batches. */
  lemma {:induction false} RunSyncs(batches: seq<seq<Event>>, p: Pad)
    ensures Run(batches, p).Running? ==> SyncCount(Run(batches, p).trace) == |batches|
    ensures Run(batches, p).Aborted? ==> SyncCount(Run(batches, p).trace) < |batches|
    decreases |batches|
  {
    if batches != [] {
      match ProcessBatch(batches[0], p)
      case Aborted(t) =>
        NoSyncCount(t);
      case Running(q, t) =>
        var rest := Run(batches[1..], q);
        RunSyncs(batches[1..], q);
        OneSyncCount(t);
        SyncCountAppend(t, rest.trace);
    }
  }

  lemma {:induction false} SyncCountAppend(s: seq<Event>, t: seq<Event>)
    ensures SyncCount(s + t) == SyncCount(s) + SyncCount(t)
    decreases |t|
  {
    if t == [] {
      assert s + t == s;
    } else {
      var last := |t| - 1;
      assert (s + t)[..|s + t| - 1] == s + t[..last];
      SyncCountAppend(s, t[..last]);
    }
  }

  lemma {:induction false} NoSyncCount(t: seq<Event>)
    requires forall e <- t :: e.kind != EV_SYN
    ensures SyncCount(t) == 0
    decreases |t|
  {
    if t != [] {
      assert forall e <- t[..|t| - 1] :: e in t;
      NoSyncCount(t[..|t| - 1]);
    }
  }

  lemma OneSyncCount(t: seq<Event>)
    requires 0 < |t| && t[|t| - 1] == SyncRecord
    requires forall i :: 0 <= i < |t| - 1 ==> t[i].kind != EV_SYN
    ensures SyncCount(t) == 1
  {
    var front := t[..|t| - 1];
    assert forall e <- front :: e.kind != EV_SYN;
    NoSyncCount(front);
  }

  lemma PrependTwice(t: seq<Event>, u: seq<Event>, o: Outcome)
    ensures Prepend(t, Prepend(u, o)) == Prepend(t + u, o)
  {
    assert t + (u + o.trace) == (t + u) + o.trace;
  }

  /** Draining two consecutive stretches of a batch is draining the first,
      then the second from where the first left the sink. */
  lemma {:induction false} DrainAppend(a: seq<Event>, b: seq<Event>, p: Pad)
    ensures Drain(a + b, p) ==
      match Drain(a, p)
      case Running(q, t) => Prepend(t, Drain(b, q))
      case Aborted(t) => Aborted(t)
    decreases |a|
  {
    if a == [] {
      assert a + b == b;
    } else {
      var ab := a + b;
      assert ab[0] == a[0];
      assert ab[1..] == a[1..] + b;
      match HandlePress(a[0], p)
      case Aborted(t) =>
        assert Drain(ab, p) == Aborted(t);
        assert Drain(a, p) == Aborted(t);
      case Running(q, t) =>
        DrainAppend(a[1..], b, q);
        assert Drain(ab, p) == Prepend(t, Drain(a[1..] + b, q));
        match Drain(a[1..], q)
        case Aborted(u) =>
          assert Drain(a, p) == Aborted(t + u);
        case Running(q', u) =>
          assert Drain(a, p) == Running(q', t + u);
          PrependTwice(t, u, Drain(b, q'));
    }
  }

  /** Running two consecutive stretches of batches is running the first,
      then the second from where the first left the sink. */
  lemma {:induction false} RunAppend(a: seq<seq<Event>>, c: seq<seq<Event>>, p: Pad)
    ensures Run(a + c, p) ==
      match Run(a, p)
      case Running(q, t) => Prepend(t, Run(c, q))
      case Aborted(t) => Aborted(t)
    decreases |a|
  {
    if a == [] {
      assert a + c == c;
    } else {
      var ac := a + c;
      assert ac[0] == a[0];
      assert ac[1..] == a[1..] + c;
      match ProcessBatch(a[0], p)
      case Aborted(t) =>
        assert Run(ac, p) == Aborted(t);
        assert Run(a, p) == Aborted(t);
      case Running(q, t) =>
        RunAppend(a[1..], c, q);
        assert Run(ac, p) == Prepend(t, Run(a[1..] + c, q));
        match Run(a[1..], q)
        case Aborted(u) =>
          assert Run(a, p) == Aborted(t + u);
        case Running(q', u) =>
          assert Run(a, p) == Running(q', t + u);
          PrependTwice(t, u, Run(c, q'));
    }
  }

  lemma SplitAt<T>(s: seq<T>, i: nat)
    requires i <= |s|
    ensures s[..i] + s[i..] == s
  {
  }

  /** Draining one more record of a batch. */
  lemma DrainStep(evs: seq<Event>, i: nat, p: Pad)
    requires i < |evs|
    ensures Drain(evs[..i + 1], p) ==
      match Drain(evs[..i], p)
      case Running(q, t) => Prepend(t, HandlePress(evs[i], q))
      case Aborted(t) => Aborted(t)
  {
    DrainAppend(evs[..i], [evs[i]], p);
    assert evs[..i + 1] == evs[..i] + [evs[i]];
    assert [evs[i]][1..] == [];
    match Drain(evs[..i], p)
    case Aborted(t) =>
    case Running(q, t) =>
      assert Drain([evs[i]], q) == Prepend([], HandlePress(evs[i], q));
  }

  /** Once a prefix of a batch aborts, the whole batch aborts the same way. */
  lemma DrainAbortedPrefix(evs: seq<Event>, i: nat, p: Pad)
    requires i <= |evs| && Drain(evs[..i], p).Aborted?
    ensures Drain(evs, p) == Drain(evs[..i], p)
  {
    DrainAppend(evs[..i], evs[i..], p);
    SplitAt(evs, i);
  }

  /** Running one more batch. */
  lemma RunStep(batches: seq<seq<Event>>, b: nat, p: Pad)
    requires b < |batches|
    ensures Run(batches[..b + 1], p) ==
      match Run(batches[..b], p)
      case Running(q, t) => Prepend(t, ProcessBatch(batches[b], q))
      case Aborted(t) => Aborted(t)
  {
    RunAppend(batches[..b], [batches[b]], p);
    assert batches[..b + 1] == batches[..b] + [batches[b]];
    assert [batches[b]][1..] == [];
    match Run(batches[..b], p)
    case Aborted(t) =>
    case Running(q, t) =>
      assert Run([batches[b]], q) == Prepend([], ProcessBatch(batches[b], q));
  }

  /** Once a prefix of the batches aborts, the whole run aborts the same way. */
  lemma RunAbortedPrefix(batches: seq<seq<Event>>, b: nat, p: Pad)
    requires b <= |batches| && Run(batches[..b], p).Aborted?
    ensures Run(batches, p) == Run(batches[..b], p)
  {
    RunAppend(batches[..b], batches[b..], p);
    SplitAt(batches, b);
  }

  /** The inner loop of the program, written as it runs: read and handle
      records until the batch is exhausted. It computes exactly `Drain`. */
  method DrainBatch(batch: seq<Event>, start: Pad) returns (o: Outcome)
    ensures o == Drain(batch, start)
  {
    var pad := start;
    var written: seq<Event> := [];
    var i := 0;
    while i < |batch|
      invariant 0 <= i <= |batch|
      invariant Drain(batch[..i], start) == Running(pad, written)
    {
      DrainStep(batch, i, start);
      match HandlePress(batch[i], pad) {
        case Aborted(u) =>
          DrainAbortedPrefix(batch, i + 1, start);
          return Aborted(written + u);
        case Running(q, u) =>
          pad := q;
          written := written + u;
      }
      i := i + 1;
    }
    assert batch[..i] == batch;
    o := Running(pad, written);
  }

  /** The program's loop, written as it runs: for each wake-up, drain the
      buffered records, then write a sync marker. It computes exactly `Run`. */
  method EventLoopRun(batches: seq<seq<Event>>, p: Pad) returns (o: Outcome)
    ensures o == Run(batches, p)
  {
    var pad := p;
    var trace: seq<Event> := [];
    var b := 0;
    while b < |batches|
      invariant 0 <= b <= |batches|
      invariant Run(batches[..b], p) == Running(pad, trace)
    {
      RunStep(batches, b, p);
      var drained := DrainBatch(batches[b], pad);
      match drained {
        case Aborted(u) =>
          RunAbortedPrefix(batches, b + 1, p);
          return Aborted(trace + u);
        case Running(q, u) =>
          pad := q;
          trace := trace + (u + [SyncRecord]);
      }
      b := b + 1;
    }
    assert batches[..b] == batches;
    o := Running(pad, trace);
  }
}

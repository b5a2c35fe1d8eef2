/**
  Properties of the translator's output stream as a reader of the emulated
  device sees it, and the crossed-key and aliased-button scenarios.
 */
module EventLoopLemmas {
  import opened InputCodes
  import opened Gamepad
  import opened EventLoop

  /** A record the emulated device was registered for: a button record for
      one of the four buttons with a press-state value, an axis record for
      one of the two left-stick axes with a level value, or a sync marker. */
  predicate Registered(e: Event)
  {
    || (e.kind == EV_KEY && e.code in {BTN_A, BTN_B, BTN_X, BTN_Y} && 0 <= e.value <= 2)
    || (e.kind == EV_ABS && e.code in {ABS_X, ABS_Y} && LevelOf(e.value).Some?)
    || e == SyncRecord
  }

  /** The axis an absolute-axis code reports, if any. */
  function AxisOfCode(code: int): Option<Axis>
  {
    if code == ABS_X as int then Some(Horizontal)
    else if code == ABS_Y as int then Some(Vertical)
    else None
  }

  /** How a reader of the device updates its picture of the stick on one
      record: an axis record moves the axis to the level it carries; every
      other record leaves the picture alone. */
  function Observe(p: Pad, e: Event): Pad
  {
    if e.kind != EV_ABS then p
    else
      match (AxisOfCode(e.code), LevelOf(e.value))
      case (Some(a), Some(l)) => Set(p, a, l)
      case _ => p
  }

  /** The reader's picture after a sequence of records. */
  function Replay(t: seq<Event>, p: Pad): Pad
    decreases |t|
  {
    if t == [] then p else Replay(t[1..], Observe(p, t[0]))
  }

  lemma {:induction false} ReplayAppend(s: seq<Event>, t: seq<Event>, p: Pad)
    ensures Replay(s + t, p) == Replay(t, Replay(s, p))
    decreases |s|
  {
    if s == [] {
      assert s + t == t;
    } else {
      assert (s + t)[0] == s[0];
      assert (s + t)[1..] == s[1..] + t;
      ReplayAppend(s[1..], t, Observe(p, s[0]));
    }
  }

  lemma PadsEqual(p: Pad, q: Pad)
    requires Get(p, Horizontal) == Get(q, Horizontal)
    requires Get(p, Vertical) == Get(q, Vertical)
    ensures p == q
  {
  }

  /** Handling one record keeps the reader's picture equal to the sink's
      state: a stick action writes the level it has just stored. */
  lemma HandlePressReplay(ev: Event, p: Pad)
    ensures HandlePress(ev, p).Running? ==>
      Replay(HandlePress(ev, p).trace, p) == HandlePress(ev, p).pad
    ensures forall e <- HandlePress(ev, p).trace :: Registered(e)
  {
    var r := HandlePress(ev, p);
    if r.Running? && |r.trace| == 1 {
      var e := r.trace[0];
      assert Replay(r.trace, p) == Observe(p, e);
      if ev.kind == EV_KEY && MapButton(ev.code).None? {
        var a := MapStick(ev.code, ButtonStateFrom(ev.value).value).value;
        assert AxisOfCode(e.code) == Some(a.axis);
        PadsEqual(Observe(p, e), r.pad);
      }
    }
  }

  /** Draining a batch keeps the reader's picture equal to the sink's state,
      and writes only records the device was registered for. */
  lemma {:induction false} DrainReplay(evs: seq<Event>, p: Pad)
    ensures Drain(evs, p).Running? ==> Replay(Drain(evs, p).trace, p) == Drain(evs, p).pad
    ensures forall e <- Drain(evs, p).trace :: Registered(e)
    decreases |evs|
  {
    if evs != [] {
      HandlePressReplay(evs[0], p);
      match HandlePress(evs[0], p)
      case Aborted(t) =>
      case Running(q, t) =>
        var rest := Drain(evs[1..], q);
        DrainReplay(evs[1..], q);
        ReplayAppend(t, rest.trace, p);
    }
  }

  /** A whole run keeps the reader's picture equal to the sink's state after
      every batch, and writes only registered records. */
  lemma {:induction false} RunReplay(batches: seq<seq<Event>>, p: Pad)
    ensures Run(batches, p).Running? ==> Replay(Run(batches, p).trace, p) == Run(batches, p).pad
    ensures forall e <- Run(batches, p).trace :: Registered(e)
    decreases |batches|
  {
    if batches != [] {
      var d := Drain(batches[0], p);
      DrainReplay(batches[0], p);
      match d
      case Aborted(t) =>
      case Running(q, t) =>
        var t' := t + [SyncRecord];
        assert ProcessBatch(batches[0], p) == Running(q, t');
        ReplayAppend(t, [SyncRecord], p);
        var rest := Run(batches[1..], q);
        RunReplay(batches[1..], q);
        ReplayAppend(t', rest.trace, p);
    }
  }

  /** A key whose press state is Repeat and which is not a button is dropped:
      repeats of direction keys never move the stick. */
  lemma StickRepeatDropped(code: u16, p: Pad)
    requires MapButton(code).None?
    ensures HandlePress(Event(EV_KEY, code, 2), p) == Running(p, [])
  {
  }

  /** Two keys that alias to the same button write identical records; the
      records are not deduplicated. */
  lemma AliasedPressesNotDeduplicated(k1: u16, k2: u16, v: i32, p: Pad)
    requires 0 <= v <= 2
    requires MapButton(k1).Some? && MapButton(k1) == MapButton(k2)
    ensures ProcessBatch([Event(EV_KEY, k1, v), Event(EV_KEY, k2, v)], p) ==
      Running(p, [Event(EV_KEY, ButtonCode(MapButton(k1).value), v),
                  Event(EV_KEY, ButtonCode(MapButton(k1).value), v),
                  SyncRecord])
  {
    var e1 := Event(EV_KEY, k1, v);
    var e2 := Event(EV_KEY, k2, v);
    var out := Event(EV_KEY, ButtonCode(MapButton(k1).value), v);
    assert [e1, e2][1..] == [e2];
    assert Drain([e2], p) == Running(p, [out]) by {
      assert [e2][1..] == [];
    }
    assert Drain([e1, e2], p) == Running(p, [out, out]);
  }

  /** Crossed keys: W pressed, S pressed while W is held, then W released,
      in one batch from a centred pad. The vertical axis goes up, cancels to
      the centre, stays centred, and one sync marker follows. */
  lemma CrossedKeys()
    ensures ProcessBatch([Event(EV_KEY, KEY_W, 1), Event(EV_KEY, KEY_S, 1), Event(EV_KEY, KEY_W, 0)], InitialPad) ==
      Running(Pad(Neutral, Neutral),
              [Event(EV_ABS, ABS_Y, -32768), Event(EV_ABS, ABS_Y, 0), Event(EV_ABS, ABS_Y, 0), SyncRecord])
  {
    var w1 := Event(EV_KEY, KEY_W, 1);
    var s1 := Event(EV_KEY, KEY_S, 1);
    var w0 := Event(EV_KEY, KEY_W, 0);
    assert HandlePress(w1, InitialPad) == Running(Pad(Neutral, Low), [Event(EV_ABS, ABS_Y, -32768)]);
    assert HandlePress(s1, Pad(Neutral, Low)) == Running(Pad(Neutral, Neutral), [Event(EV_ABS, ABS_Y, 0)]);
    assert HandlePress(w0, Pad(Neutral, Neutral)) == Running(Pad(Neutral, Neutral), [Event(EV_ABS, ABS_Y, 0)]);
    assert [w1, s1, w0][1..] == [s1, w0];
    assert [s1, w0][1..] == [w0];
    assert [w0][1..] == [];
    assert Drain([w0], Pad(Neutral, Neutral)) == Running(Pad(Neutral, Neutral), [Event(EV_ABS, ABS_Y, 0)]);
    assert Drain([s1, w0], Pad(Neutral, Low)) ==
      Running(Pad(Neutral, Neutral), [Event(EV_ABS, ABS_Y, 0), Event(EV_ABS, ABS_Y, 0)]);
    assert Drain([w1, s1, w0], InitialPad) ==
      Running(Pad(Neutral, Neutral), [Event(EV_ABS, ABS_Y, -32768), Event(EV_ABS, ABS_Y, 0), Event(EV_ABS, ABS_Y, 0)]);
  }

  /** Holding W then releasing it, across two wake-ups: each batch ends with
      its own sync marker and the vertical level carries over between them. */
  lemma PressThenReleaseAcrossBatches()
    ensures Run([[Event(EV_KEY, KEY_W, 1)], [Event(EV_KEY, KEY_W, 0)]], InitialPad) ==
      Running(InitialPad,
              [Event(EV_ABS, ABS_Y, -32768), SyncRecord, Event(EV_ABS, ABS_Y, 0), SyncRecord])
  {
    var w1 := Event(EV_KEY, KEY_W, 1);
    var w0 := Event(EV_KEY, KEY_W, 0);
    assert [w1][1..] == [] && [w0][1..] == [];
    assert HandlePress(w1, InitialPad) == Running(Pad(Neutral, Low), [Event(EV_ABS, ABS_Y, -32768)]);
    assert HandlePress(w0, Pad(Neutral, Low)) == Running(InitialPad, [Event(EV_ABS, ABS_Y, 0)]);
    assert Drain([w1], InitialPad) == Running(Pad(Neutral, Low), [Event(EV_ABS, ABS_Y, -32768)]);
    assert Drain([w0], Pad(Neutral, Low)) == Running(InitialPad, [Event(EV_ABS, ABS_Y, 0)]);
    assert ProcessBatch([w1], InitialPad) == Running(Pad(Neutral, Low), [Event(EV_ABS, ABS_Y, -32768), SyncRecord]);
    assert ProcessBatch([w0], Pad(Neutral, Low)) == Running(InitialPad, [Event(EV_ABS, ABS_Y, 0), SyncRecord]);
    assert [[w1], [w0]][1..] == [[w0]];
    assert [[w0]][1..] == [];
    assert Run([[w0]], Pad(Neutral, Low)) == Running(InitialPad, [Event(EV_ABS, ABS_Y, 0), SyncRecord]);
  }
}

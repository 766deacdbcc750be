/** Whole runs of the controller from the moment the window is built: the
    user presses START/STOP or Quit, and the timer fires while it is armed. */
module Session {
  import opened Wrappers
  import opened Fifo
  import opened Files
  import opened Instrument
  import opened Acquisition

  /** What can happen to the window: a press of the START/STOP button with the
      current output-name text and interval label, a press of Quit, or a
      timer expiry that would take `sample`. */
  datatype Event =
    | Toggle(text: string, selected: string)
    | Quit
    | Tick(sample: Sample)

  /** A timer expiry is delivered only while the timer is armed. */
  predicate Fires(m: Machine, e: Event) {
    e.Tick? && m.timer.Some?
  }

  /** One event as the window's signal wiring dispatches it: the button runs
      `ToggleDaq`, Quit runs `CloseAll`, and a timer expiry runs `UpdateValue`
      only while the timer is armed. */
  function Apply(m: Machine, e: Event): (r: Machine)
    ensures Inv(m) ==> Inv(r)
    ensures e.Tick? && m.timer.None? ==> r == m
    ensures e.Quit? ==> !r.running
    ensures Fires(m, e) ==> r.running == m.running && r.timer == m.timer && r.ofname == m.ofname
    ensures !Fires(m, e) ==> r.firstTime == m.firstTime && r.plotX == m.plotX && r.plotY == m.plotY
  {
    match e
    case Toggle(text, selected) => ToggleDaq(m, text, selected).after
    case Quit => CloseAll(m)
    case Tick(s) => if m.timer.Some? then UpdateValue(m, s) else m
  }

  function Run(m: Machine, evs: seq<Event>): Machine
    decreases |evs|
  {
    if evs == [] then m else Run(Apply(m, evs[0]), evs[1..])
  }

  /** The samples a single event takes: one if it is a delivered tick, none otherwise. */
  function Taken(m: Machine, e: Event): seq<Sample> {
    if Fires(m, e) then [e.sample] else []
  }

  /** The samples actually taken during a run, in order. */
  function Delivered(m: Machine, evs: seq<Event>): seq<Sample>
    decreases |evs|
  {
    if evs == [] then []
    else Taken(m, evs[0]) + Delivered(Apply(m, evs[0]), evs[1..])
  }

  /** Elapsed times of samples measured from `origin`. */
  function Elapsed(ds: seq<Sample>, origin: real): seq<real>
    decreases |ds|
  {
    if ds == [] then [] else [ds[0].time - origin] + Elapsed(ds[1..], origin)
  }

  function Values(ds: seq<Sample>): seq<real>
    decreases |ds|
  {
    if ds == [] then [] else [ds[0].value] + Values(ds[1..])
  }

  /** The data lines written for samples measured from `origin`. */
  function DataLines(ds: seq<Sample>, origin: real): seq<Line>
    decreases |ds|
  {
    if ds == [] then [] else [Data(ds[0].time - origin, ds[0].value)] + DataLines(ds[1..], origin)
  }

  /** The origin of a run that takes the samples `ds` from state `m`. */
  function OriginOf(m: Machine, ds: seq<Sample>): real
    requires m.firstTime.Some? || ds != []
  {
    if m.firstTime.Some? then m.firstTime.value else ds[0].time
  }

  lemma {:induction false} ElapsedLength(ds: seq<Sample>, origin: real)
    ensures |Elapsed(ds, origin)| == |ds| == |Values(ds)|
    decreases |ds|
  {
    if ds != [] {
      ElapsedLength(ds[1..], origin);
    }
  }

  /** Every reachable state satisfies the controller invariant. */
  lemma {:induction false} RunPreservesInv(m: Machine, evs: seq<Event>)
    requires Inv(m)
    ensures Inv(Run(m, evs))
    decreases |evs|
  {
    if evs != [] {
      RunPreservesInv(Apply(m, evs[0]), evs[1..]);
    }
  }

  /** A delivered tick pushes the new elapsed time and value onto windows. */
  lemma TickWindows(m: Machine, s: Sample)
    requires m.timer.Some?
    ensures var m1 := UpdateValue(m, s);
            && m1.firstTime == Some(Origin(m, s))
            && m1.plotX == Window(m.plotX + [s.time - Origin(m, s)], FIFO_LENGTH)
            && m1.plotY == Window(m.plotY + [s.value], FIFO_LENGTH)
  {
  }

  /** Pushing one entry onto a window and then the rest is the window of the
      whole history. */
  lemma PushThenRest<T>(q: seq<T>, x: T, rest: seq<T>)
    ensures Window(Window(q + [x], FIFO_LENGTH) + rest, FIFO_LENGTH) == Window(q + ([x] + rest), FIFO_LENGTH)
  {
    WindowAppend(q + [x], rest, FIFO_LENGTH);
    assert q + [x] + rest == q + ([x] + rest);
  }

  /** The inductive step of `RunHistory` for a tick that is delivered: if the
      rest of the run extends the state after the tick as claimed, the whole
      run extends the state before it as claimed. */
  lemma HistoryAfterTick(m: Machine, s: Sample, ds1: seq<Sample>, r: Machine)
    requires m.timer.Some?
    requires var m1 := UpdateValue(m, s);
             ds1 == [] ==> r.firstTime == m1.firstTime && r.plotX == m1.plotX && r.plotY == m1.plotY
    requires var m1 := UpdateValue(m, s);
             ds1 != [] ==>
               var o := OriginOf(m1, ds1);
               && r.firstTime == Some(o)
               && r.plotX == Window(m1.plotX + Elapsed(ds1, o), FIFO_LENGTH)
               && r.plotY == Window(m1.plotY + Values(ds1), FIFO_LENGTH)
    ensures var ds := [s] + ds1;
            var o := OriginOf(m, ds);
            && r.firstTime == Some(o)
            && r.plotX == Window(m.plotX + Elapsed(ds, o), FIFO_LENGTH)
            && r.plotY == Window(m.plotY + Values(ds), FIFO_LENGTH)
  {
    var ds := [s] + ds1;
    assert ds[1..] == ds1;
    var o := OriginOf(m, ds);
    TickWindows(m, s);
    assert Elapsed(ds, o) == [s.time - o] + Elapsed(ds1, o);
    assert Values(ds) == [s.value] + Values(ds1);
    PushThenRest(m.plotX, s.time - o, Elapsed(ds1, o));
    PushThenRest(m.plotY, s.value, Values(ds1));
    if ds1 == [] {
      assert Elapsed(ds1, o) == [] && Values(ds1) == [];
      assert [s.time - o] + [] == [s.time - o];
      assert [s.value] + [] == [s.value];
    }
  }

  /** Across any run, the origin is fixed by the first sample ever taken and
      never changes again, and each buffer is the window of the newest
      FIFO_LENGTH entries of its whole history, each elapsed time being the
      sample's timestamp minus that origin. */
  lemma {:induction false} RunHistory(m: Machine, evs: seq<Event>)
    ensures var ds := Delivered(m, evs);
            var r := Run(m, evs);
            ds == [] ==> r.firstTime == m.firstTime && r.plotX == m.plotX && r.plotY == m.plotY
    ensures var ds := Delivered(m, evs);
            var r := Run(m, evs);
            ds != [] ==>
              var o := OriginOf(m, ds);
              && r.firstTime == Some(o)
              && r.plotX == Window(m.plotX + Elapsed(ds, o), FIFO_LENGTH)
              && r.plotY == Window(m.plotY + Values(ds), FIFO_LENGTH)
    decreases |evs|
  {
    if evs != [] {
      var e, rest := evs[0], evs[1..];
      var m1 := Apply(m, e);
      RunHistory(m1, rest);
      var ds1 := Delivered(m1, rest);
      if Fires(m, e) {
        assert Delivered(m, evs) == [e.sample] + ds1;
        HistoryAfterTick(m, e.sample, ds1, Run(m, evs));
      } else {
        assert Delivered(m, evs) == ds1;
      }
    }
  }

  /** From construction, after n samples each buffer holds exactly min(n, 100)
      entries, the newest ones, oldest first; the first sample is the origin,
      so the first reading recorded is at elapsed time 0. */
  lemma FromConstruction(fs: FileSystem, evs: seq<Event>)
    ensures var ds := Delivered(Init(fs), evs);
            var r := Run(Init(fs), evs);
            |r.plotX| == |r.plotY| == Min(|ds|, FIFO_LENGTH)
    ensures var ds := Delivered(Init(fs), evs);
            var r := Run(Init(fs), evs);
            ds != [] ==>
              && r.firstTime == Some(ds[0].time)
              && r.plotX == Window(Elapsed(ds, ds[0].time), FIFO_LENGTH)
              && r.plotY == Window(Values(ds), FIFO_LENGTH)
    ensures var ds := Delivered(Init(fs), evs);
            var r := Run(Init(fs), evs);
            0 < |ds| <= FIFO_LENGTH ==> r.plotX[0] == 0.0
  {
    var m := Init(fs);
    var ds := Delivered(m, evs);
    RunHistory(m, evs);
    ElapsedLength(ds, if ds == [] then 0.0 else ds[0].time);
    if ds != [] {
      assert m.plotX + Elapsed(ds, ds[0].time) == Elapsed(ds, ds[0].time);
      assert m.plotY + Values(ds) == Values(ds);
    }
  }

  /** No button is pressed: only timer expiries and Quit. */
  predicate NoToggle(evs: seq<Event>) {
    forall i :: 0 <= i < |evs| ==> !evs[i].Toggle?
  }

  /** Running one event, then the rest. */
  lemma Unroll(m: Machine, evs: seq<Event>)
    requires evs != []
    ensures Run(m, evs) == Run(Apply(m, evs[0]), evs[1..])
    ensures Delivered(m, evs) == Taken(m, evs[0]) + Delivered(Apply(m, evs[0]), evs[1..])
  {
  }

  /** Running a first event, then the rest. */
  lemma RunCons(m: Machine, e: Event, rest: seq<Event>)
    ensures Run(m, [e] + rest) == Run(Apply(m, e), rest)
  {
  }

  /** Pressing the button when idle with a valid label starts a session. */
  lemma ToggleStarts(m: Machine, text: string, selected: string)
    requires !m.running && selected in READOUT_INTERVALS
    ensures var r := Apply(m, Toggle(text, selected));
            && r.running && r.timer == Some(READOUT_INTERVALS[selected])
            && r.firstTime == m.firstTime && r.plotX == m.plotX && r.plotY == m.plotY
            && r.ofname == OutputName(m.fs, text)
            && (text == "" ==> r.fs == m.fs)
  {
  }

  /** Pressing the button while running stops the session. */
  lemma ToggleStops(m: Machine, text: string, selected: string)
    requires m.running
    ensures var r := Apply(m, Toggle(text, selected));
            && !r.running
            && r.firstTime == m.firstTime && r.plotX == m.plotX && r.plotY == m.plotY
  {
  }

  /** A timer expiry while armed is one `UpdateValue`, which keeps it armed. */
  lemma TickStep(m: Machine, s: Sample)
    requires m.timer.Some?
    ensures Apply(m, Tick(s)) == UpdateValue(m, s)
    ensures Apply(m, Tick(s)).running == m.running && Apply(m, Tick(s)).timer == m.timer
  {
  }

  /** A timer expiry or Quit keeps the output name. One that takes no sample
      keeps the origin and the files; one that takes a sample fixes the origin
      and appends that sample's data line to the output file, if any. */
  lemma QuietFileStep(m: Machine, e: Event)
    requires !e.Toggle?
    ensures var m1 := Apply(m, e);
            && m1.ofname == m.ofname
            && (!Fires(m, e) ==> m1.fs == m.fs && m1.firstTime == m.firstTime)
            && (Fires(m, e) ==>
                  var o := Origin(m, e.sample);
                  && m1.firstTime == Some(o)
                  && (m.ofname.None? ==> m1.fs == m.fs)
                  && (m.ofname.Some? ==>
                        var p := m.ofname.value;
                        Contents(m1.fs, p) == Contents(m.fs, p) + DataLines([e.sample], o)
                        && OnlyChanged(m.fs, m1.fs, p)))
  {
    if Fires(m, e) {
      var s := e.sample;
      assert DataLines([s], Origin(m, s)) == [Data(s.time - Origin(m, s), s.value)];
    }
  }

  /** The data lines of two runs of samples back to back. */
  lemma {:induction false} DataLinesAppend(xs: seq<Sample>, ys: seq<Sample>, o: real)
    ensures DataLines(xs + ys, o) == DataLines(xs, o) + DataLines(ys, o)
    decreases |xs|
  {
    if xs == [] {
      assert xs + ys == ys;
    } else {
      assert (xs + ys)[1..] == xs[1..] + ys;
      DataLinesAppend(xs[1..], ys, o);
    }
  }

  /** Two appends to `p`, each confined to `p`, amount to one. */
  lemma AppendsCompose(before: FileSystem, mid: FileSystem, after: FileSystem, p: Path, a: seq<Line>, b: seq<Line>)
    requires Contents(mid, p) == Contents(before, p) + a && OnlyChanged(before, mid, p)
    requires Contents(after, p) == Contents(mid, p) + b && OnlyChanged(mid, after, p)
    ensures Contents(after, p) == Contents(before, p) + (a + b)
    ensures OnlyChanged(before, after, p)
  {
    OnlyChangedTrans(before, mid, after, p);
  }

  /** Without button presses in a run, none in its tail either. */
  lemma NoToggleTail(evs: seq<Event>)
    requires evs != [] && NoToggle(evs)
    ensures NoToggle(evs[1..])
  {
    forall i | 0 <= i < |evs| - 1 ensures !evs[1..][i].Toggle? {
      assert evs[1..][i] == evs[i + 1];
    }
  }

  /** What going from `m` to `r` while taking the samples `ds` writes: the
      output name is kept; with no output file or no sample nothing is
      written; otherwise the output file gains one data line per sample, in
      order, measured from the origin in force or, when none is set yet, from
      the first sample, and no other file changes. */
  ghost predicate Logged(m: Machine, r: Machine, ds: seq<Sample>) {
    && r.ofname == m.ofname
    && (m.ofname.None? || ds == [] ==> r.fs == m.fs)
    && (m.ofname.Some? && ds != [] ==>
          Contents(r.fs, m.ofname.value) == Contents(m.fs, m.ofname.value) + DataLines(ds, OriginOf(m, ds))
          && OnlyChanged(m.fs, r.fs, m.ofname.value))
  }

  /** Two logged stretches back to back, the second starting from the origin
      the first one leaves. */
  lemma LogCompose(m: Machine, m1: Machine, r: Machine, pre: seq<Sample>, ds: seq<Sample>)
    requires Logged(m, m1, pre) && Logged(m1, r, ds)
    requires pre == [] ==> m1.firstTime == m.firstTime
    requires pre != [] ==> m1.firstTime == Some(OriginOf(m, pre))
    ensures Logged(m, r, pre + ds)
  {
    if pre == [] {
      assert pre + ds == ds;
    } else if m.ofname.Some? && ds != [] {
      var o := OriginOf(m, pre);
      assert (pre + ds)[0] == pre[0];
      assert OriginOf(m1, ds) == o && OriginOf(m, pre + ds) == o;
      AppendsCompose(m.fs, m1.fs, r.fs, m.ofname.value, DataLines(pre, o), DataLines(ds, o));
      DataLinesAppend(pre, ds, o);
    } else if m.ofname.Some? {
      assert pre + ds == pre;
    }
  }

  lemma {:induction false} LogsAll(m: Machine, evs: seq<Event>)
    requires NoToggle(evs)
    ensures Logged(m, Run(m, evs), Delivered(m, evs))
    decreases |evs|
  {
    if evs != [] {
      var e, rest := evs[0], evs[1..];
      var m1 := Apply(m, e);
      NoToggleTail(evs);
      LogsAll(m1, rest);
      Unroll(m, evs);
      QuietFileStep(m, e);
      var pre := Taken(m, e);
      assert Logged(m, m1, pre) by {
        if Fires(m, e) {
          assert pre == [e.sample];
        }
      }
      LogCompose(m, m1, Run(m1, rest), pre, Delivered(m1, rest));
    }
  }

  /** While no button is pressed, the output file receives exactly one data
      line per sample taken, in order, measured from the origin in force or,
      when none is set yet, from the first sample; no other file changes.
      With no output file, or with no sample taken, nothing is written. */
  lemma RunLog(m: Machine, evs: seq<Event>)
    requires NoToggle(evs)
    ensures Run(m, evs).ofname == m.ofname
    ensures m.ofname.None? || Delivered(m, evs) == [] ==> Run(m, evs).fs == m.fs
    ensures m.ofname.Some? && Delivered(m, evs) != [] ==>
              var p := m.ofname.value;
              var ds := Delivered(m, evs);
              var r := Run(m, evs);
              Contents(r.fs, p) == Contents(m.fs, p) + DataLines(ds, OriginOf(m, ds))
              && OnlyChanged(m.fs, r.fs, p)
  {
    LogsAll(m, evs);
  }

  /** Three ticks one tenth of a second apart, with no output file, leave
      the elapsed times 0, 0.1 and 0.2 in the time buffer. */
  lemma ThreeTicksScenario(fs: FileSystem, v1: real, v2: real, v3: real)
    ensures var r := Run(Init(fs), [Toggle("", "100 ms"),
                                    Tick(Sample(1000.0, v1)), Tick(Sample(1000.1, v2)), Tick(Sample(1000.2, v3))]);
            && r.plotX == [0.0, 0.1, 0.2]
            && r.plotY == [v1, v2, v3]
            && r.fs == fs
            && r.running && r.timer == Some(100)
  {
    var a, b, c, d := Toggle("", "100 ms"), Tick(Sample(1000.0, v1)), Tick(Sample(1000.1, v2)), Tick(Sample(1000.2, v3));
    var m0 := Init(fs);
    IntervalsByLabel();
    var m1 := Apply(m0, a);
    ToggleStarts(m0, "", "100 ms");
    var m2 := Apply(m1, b);
    TickStep(m1, b.sample);
    TickShiftsBuffers(m1, b.sample);
    var m3 := Apply(m2, c);
    TickStep(m2, c.sample);
    TickShiftsBuffers(m2, c.sample);
    var m4 := Apply(m3, d);
    TickStep(m3, d.sample);
    TickShiftsBuffers(m3, d.sample);
    assert m4.plotX == [0.0, 0.1, 0.2] && m4.plotY == [v1, v2, v3];
    RunCons(m3, d, []);
    RunCons(m2, c, [d]);
    RunCons(m1, b, [c, d]);
    RunCons(m0, a, [b, c, d]);
    assert [a, b, c, d] == [a] + [b, c, d];
    assert [b, c, d] == [b] + [c, d];
    assert [c, d] == [c] + [d];
    assert [d] == [d] + [];
  }

  /** Starting with the name of an existing file writes the header to that
      name with `_1` appended and leaves the existing file untouched. */
  lemma CollisionScenario(existing: seq<Line>)
    ensures var fs := map["out.txt" := existing];
            var r := Run(Init(fs), [Toggle("out.txt", "1 s")]);
            && r.ofname == Some("out.txt_1")
            && Contents(r.fs, "out.txt") == existing
            && Contents(r.fs, "out.txt_1") == [Header]
            && r.timer == Some(1000)
  {
    var fs := map["out.txt" := existing];
    var evs := [Toggle("out.txt", "1 s")];
    assert "out.txt" + "_1" == "out.txt_1";
    assert "out.txt_1" != "out.txt";
    assert "out.txt_1" !in fs;
    var r := Apply(Init(fs), evs[0]);
    assert SameFile(fs, r.fs, "out.txt");
    Unroll(Init(fs), evs);
  }

  /** Stopping and starting again does not reset the time origin: the first
      reading of the second session is measured from the first session's
      first sample, not from zero. */
  lemma SecondSessionKeepsOrigin(fs: FileSystem)
    ensures var r := Run(Init(fs), [Toggle("", "1 s"), Tick(Sample(5.0, 1.0)),
                                    Toggle("", "1 s"), Toggle("", "1 s"), Tick(Sample(20.0, 2.0))]);
            && r.firstTime == Some(5.0)
            && r.plotX == [0.0, 15.0]
            && r.running
  {
  }
}

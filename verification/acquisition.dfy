/** The acquisition controller of the main window, without its widgets, plot
    and timer scheduling: one immutable state record and a pure step function
    per slot (`StartDaq`, `StopDaq`, `ToggleDaq`, `CloseAll`) and per timer
    tick (`UpdateValue`). */
module Acquisition {
  import opened Wrappers
  import opened Fifo
  import opened Files
  import opened Instrument

  /** Capacity of each of the two plot buffers. */
  const FIFO_LENGTH: nat := 100

  /** Readout interval in milliseconds for each label of the interval selector. */
  const READOUT_INTERVALS: map<string, nat> :=
    map["10 ms" := 10, "100 ms" := 100, "500 ms" := 500, "1 s" := 1000, "10 s" := 10000]

  /** The five readout intervals the selector offers, in milliseconds. */
  predicate IsInterval(ms: nat) {
    ms in {10, 100, 500, 1000, 10000}
  }

  /** The controller's state.
      - `running`: an acquisition is in progress;
      - `timer`: the interval the readout timer is armed with, `None` when stopped;
      - `firstTime`: the time origin, fixed by the first tick;
      - `plotX`, `plotY`: the bounded buffers of elapsed times and values;
      - `ofname`: the output file, if any;
      - `fs`: the file system the output file lives in;
      - `outFileEnabled`, `intervalEnabled`: whether the output-name field and
        the interval selector accept input. */
  datatype Machine = Machine(
    running: bool,
    timer: Option<nat>,
    firstTime: Option<real>,
    plotX: seq<real>,
    plotY: seq<real>,
    ofname: Option<Path>,
    fs: FileSystem,
    outFileEnabled: bool,
    intervalEnabled: bool)

  /** The result of a slot: the new state, or the state reached when the
      interval lookup raised `KeyError` part-way through. */
  datatype Outcome = Ok(after: Machine) | KeyError(after: Machine)

  /** What holds of every state the controller can reach. */
  ghost predicate Inv(m: Machine) {
    && (m.running <==> m.timer.Some?)
    && (m.timer.Some? ==> IsInterval(m.timer.value))
    && |m.plotX| == |m.plotY| <= FIFO_LENGTH
    && (m.plotX == [] <==> m.firstTime.None?)
    && (m.ofname.Some? ==> m.ofname.value != "" && m.ofname.value in m.fs)
    && (m.running ==> !m.outFileEnabled && !m.intervalEnabled)
  }

  /** The freshly constructed window over the file system `fs`: idle, no
      origin, empty buffers, no output file, inputs enabled. */
  function Init(fs: FileSystem): (m: Machine)
    ensures Inv(m)
    ensures !m.running && m.timer.None?
    ensures m.firstTime.None? && m.plotX == [] && m.plotY == []
    ensures m.ofname.None? && m.fs == fs
  {
    Machine(false, None, None, [], [], None, fs, true, true)
  }

  /** The interval for a selector label; `None` where the dictionary lookup fails. */
  function IntervalOf(selected: string): (r: Option<nat>)
    ensures r.Some? <==> selected in READOUT_INTERVALS
    ensures r.Some? ==> IsInterval(r.value) && r.value == READOUT_INTERVALS[selected]
  {
    if selected in READOUT_INTERVALS then Some(READOUT_INTERVALS[selected]) else None
  }

  /** The output file chosen from the text of the output-name field. */
  function OutputName(fs: FileSystem, text: string): (r: Option<Path>)
    ensures r.None? <==> text == ""
    ensures text != "" && text in fs ==> r == Some(text + "_1")
    ensures text != "" && text !in fs ==> r == Some(text)
    ensures r.Some? ==> r.value != "" && !(r.value == text && text in fs)
  {
    if text == "" then None
    else if text in fs then
      assert |text + "_1"| == |text| + 2;
      Some(text + "_1")
    else Some(text)
  }

  /** The START slot. The output name is chosen and, when there is one, a
      header line is appended to it; the output-name field is locked; the
      interval is looked up (a failed lookup ends here with `KeyError`); the
      selector is locked; and the timer is armed only when idle. */
  function StartDaq(m: Machine, text: string, selected: string): (r: Outcome)
    ensures r.after.ofname == OutputName(m.fs, text)
    ensures r.after.ofname.None? ==> r.after.fs == m.fs
    ensures r.after.ofname.Some? ==>
              var p := r.after.ofname.value;
              Contents(r.after.fs, p) == Contents(m.fs, p) + [Header] && OnlyChanged(m.fs, r.after.fs, p)
    ensures text in m.fs ==> SameFile(m.fs, r.after.fs, text)
    ensures r.Ok? <==> selected in READOUT_INTERVALS
    ensures r.Ok? && !m.running ==> r.after.running && r.after.timer == Some(READOUT_INTERVALS[selected])
    ensures m.running || r.KeyError? ==> r.after.running == m.running && r.after.timer == m.timer
    ensures !r.after.outFileEnabled
    ensures r.after.intervalEnabled == (m.intervalEnabled && r.KeyError?)
    ensures r.after.firstTime == m.firstTime && r.after.plotX == m.plotX && r.after.plotY == m.plotY
    ensures Inv(m) ==> Inv(r.after)
  {
    var name := OutputName(m.fs, text);
    var fs := AppendTo(m.fs, name, Header);
    var m1 := m.(ofname := name, fs := fs, outFileEnabled := false);
    match IntervalOf(selected)
    case None => KeyError(m1)
    case Some(roTime) =>
      var m2 := m1.(intervalEnabled := false);
      if !m.running then Ok(m2.(timer := Some(roTime), running := true)) else Ok(m2)
  }

  /** The STOP slot: unlock both inputs and, when running, disarm the timer. */
  function StopDaq(m: Machine): (r: Machine)
    ensures !r.running
    ensures m.running ==> r.timer.None?
    ensures !m.running ==> r.timer == m.timer
    ensures r.outFileEnabled && r.intervalEnabled
    ensures r.firstTime == m.firstTime && r.plotX == m.plotX && r.plotY == m.plotY
    ensures r.ofname == m.ofname && r.fs == m.fs
    ensures Inv(m) ==> Inv(r)
  {
    var m1 := m.(outFileEnabled := true, intervalEnabled := true);
    if m.running then m1.(timer := None, running := false) else m1
  }

  /** The START/STOP button: start when idle, stop when running. */
  function ToggleDaq(m: Machine, text: string, selected: string): (r: Outcome)
    ensures r.Ok? ==> r.after.running == !m.running
    ensures r.KeyError? <==> !m.running && selected !in READOUT_INTERVALS
    ensures m.running ==> r.after.fs == m.fs && r.after.ofname == m.ofname
    ensures r.after.firstTime == m.firstTime && r.after.plotX == m.plotX && r.after.plotY == m.plotY
    ensures Inv(m) ==> Inv(r.after)
  {
    if !m.running then StartDaq(m, text, selected) else Ok(StopDaq(m))
  }

  /** The Quit button, up to the process exit: stop when running. */
  function CloseAll(m: Machine): (r: Machine)
    ensures !r.running
    ensures m.running ==> r.timer.None?
    ensures !m.running ==> r == m
    ensures r.firstTime == m.firstTime && r.plotX == m.plotX && r.plotY == m.plotY
    ensures r.ofname == m.ofname && r.fs == m.fs
    ensures Inv(m) ==> Inv(r)
  {
    if m.running then StopDaq(m) else m
  }

  /** The time origin in force once sample `s` has been taken. */
  function Origin(m: Machine, s: Sample): real {
    if m.firstTime.None? then s.time else m.firstTime.value
  }

  /** One timer tick with sample `s`. The first tick ever fixes the origin;
      the elapsed time is measured from it; one data line goes to the output
      file when there is one; both buffers take the new entry, dropping their
      oldest when full. Ticks happen only while the timer is armed. */
  function UpdateValue(m: Machine, s: Sample): (r: Machine)
    requires m.timer.Some?
    ensures m.firstTime.Some? ==> r.firstTime == m.firstTime
    ensures m.firstTime.None? ==> r.firstTime == Some(s.time)
    ensures r.firstTime.Some?
    ensures |r.plotX| > 0 && |r.plotY| > 0
    ensures r.plotX[|r.plotX| - 1] == s.time - r.firstTime.value
    ensures r.plotY[|r.plotY| - 1] == s.value
    ensures m.firstTime.None? ==> r.plotX[|r.plotX| - 1] == 0.0
    ensures m.ofname.None? ==> r.fs == m.fs
    ensures m.ofname.Some? ==>
              var p := m.ofname.value;
              Contents(r.fs, p) == Contents(m.fs, p) + [Data(r.plotX[|r.plotX| - 1], s.value)]
              && OnlyChanged(m.fs, r.fs, p)
    ensures r.running == m.running && r.timer == m.timer && r.ofname == m.ofname
    ensures r.outFileEnabled == m.outFileEnabled && r.intervalEnabled == m.intervalEnabled
    ensures Inv(m) ==> Inv(r)
  {
    var origin := Origin(m, s);
    var elapsed := s.time - origin;
    var xs := Push(m.plotX, FIFO_LENGTH, elapsed);
    var ys := Push(m.plotY, FIFO_LENGTH, s.value);
    assert |xs| > 0 && xs[|xs| - 1] == elapsed;
    assert |ys| > 0 && ys[|ys| - 1] == s.value;
    var fs := AppendTo(m.fs, m.ofname, Data(elapsed, s.value));
    Machine(m.running, m.timer, Some(origin), xs, ys, m.ofname, fs, m.outFileEnabled, m.intervalEnabled)
  }

  /** A tick appends the new elapsed time and value at the end of their
      buffers; the rest of each buffer is its previous contents, without the
      oldest entry exactly when the buffer was already full. */
  lemma TickShiftsBuffers(m: Machine, s: Sample)
    requires m.timer.Some?
    ensures var r := UpdateValue(m, s);
            var e := s.time - Origin(m, s);
            && (|m.plotX| < FIFO_LENGTH ==> r.plotX == m.plotX + [e])
            && (|m.plotX| == FIFO_LENGTH ==> r.plotX == m.plotX[1..] + [e])
            && (|m.plotY| < FIFO_LENGTH ==> r.plotY == m.plotY + [s.value])
            && (|m.plotY| == FIFO_LENGTH ==> r.plotY == m.plotY[1..] + [s.value])
  {
  }

  /** The interval behind each label of the selector. */
  lemma IntervalsByLabel()
    ensures READOUT_INTERVALS.Keys == {"10 ms", "100 ms", "500 ms", "1 s", "10 s"}
    ensures READOUT_INTERVALS["10 ms"] == 10 && READOUT_INTERVALS["100 ms"] == 100
    ensures READOUT_INTERVALS["500 ms"] == 500 && READOUT_INTERVALS["1 s"] == 1000
    ensures READOUT_INTERVALS["10 s"] == 10000
  {
  }

  /** Every label maps to one of the five intervals, and each of them is offered. */
  lemma IntervalsOffered()
    ensures forall ms :: IsInterval(ms) <==> ms in READOUT_INTERVALS.Values
  {
    assert READOUT_INTERVALS["10 ms"] == 10;
    assert READOUT_INTERVALS["100 ms"] == 100;
    assert READOUT_INTERVALS["500 ms"] == 500;
    assert READOUT_INTERVALS["1 s"] == 1000;
    assert READOUT_INTERVALS["10 s"] == 10000;
  }

  /** Stopping twice is the same as stopping once. */
  lemma StopIdempotent(m: Machine)
    ensures StopDaq(StopDaq(m)) == StopDaq(m)
  {
  }

  /** Pressing the button twice from idle, with a valid interval, ends idle
      with the timer disarmed, the inputs unlocked and the origin untouched. */
  lemma ToggleTwice(m: Machine, text: string, selected: string)
    requires Inv(m) && !m.running && selected in READOUT_INTERVALS
    ensures var r1 := ToggleDaq(m, text, selected);
            var r2 := ToggleDaq(r1.after, text, selected);
            && r1.Ok? && r1.after.running
            && r2.Ok? && !r2.after.running && r2.after.timer.None?
            && r2.after.outFileEnabled && r2.after.intervalEnabled
            && r2.after.firstTime == m.firstTime
  {
  }

  /** The `_1` rule is applied once: when both a name and that name with `_1`
      already exist, the header goes to the end of the existing `_1` file. */
  lemma SuffixedNameMayExist(m: Machine, text: string, selected: string)
    requires text != "" && text in m.fs && text + "_1" in m.fs
    ensures var r := StartDaq(m, text, selected).after;
            r.ofname == Some(text + "_1") && r.fs[text + "_1"] == m.fs[text + "_1"] + [Header]
  {
  }
}

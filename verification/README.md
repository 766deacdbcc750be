# MultimeterReader acquisition core in Dafny

This project models the acquisition controller of the voltage reader's main window. The controller polls a digital multimeter on a timer. It keeps the recent readings in two bounded plot buffers and appends each reading to an optional output file. Widgets, plotting and the instrument connection are not modelled. What remains is a small state machine, written as pure step functions over an immutable state record:

- `Acquisition.Machine` is the state record. It holds `running`, the armed timer interval, the time origin `firstTime`, the buffers `plotX`/`plotY`, the output name `ofname`, an abstract file system (a map from path to appended lines), and whether the two inputs are unlocked.
- `StartDaq`, `StopDaq`, `ToggleDaq` and `CloseAll` are the window's slots. `UpdateValue` is the timer tick.
- `Fifo` models `deque(maxlen=N)` as a `seq` that drops its oldest entry on overflow. `Window` is the reference definition: the newest N entries of the whole history.
- `Instrument` models the two `readVolt` variants. The clock readings, the random draw and the meter's reply are inputs.
- `Session` runs sequences of button presses and timer expiries from construction. It proves the history properties: buffer contents and length, the one-shot origin, and the file log.

Files: `wrappers.dfy` (Option/Result), `fifo.dfy`, `files.dfy`, `instrument.dfy`, `acquisition.dfy`, `session.dfy`.

Behaviours of the code that the model keeps as they are:

- The time origin is set to `None` only when the window is built (`setupRadout`). Stop/start never resets it, so a second session measures elapsed time from the first session's first sample and does not start again at 0 (`Session.SecondSessionKeepsOrigin`).
- The collision rule appends `_1` exactly once. If `name_1` also exists, the header and data are appended to that existing file (`Acquisition.SuffixedNameMayExist`).
- The interval lookup happens after the output name is chosen, the header is written and the name field is locked. A failed lookup (`KeyError`) therefore leaves those effects in place. `Outcome.KeyError` carries that partial state.
- `StartDaq` called while already running still re-chooses the output name and writes a header. Only the timer part is guarded by `Running`. The button never calls it in that state, because `ToggleDaq` stops instead.

## Model

| member | source | states |
|---|---|---|
| `Fifo.Window` | voltageReader.py:93-94 | a bounded deque holds min(length, capacity) entries of what was offered |
| `Fifo.Push` | voltageReader.py:108-109 | after an append the buffer never exceeds its capacity, grows by one until full, and ends with the new entry |
| `Fifo.PushShifts` | voltageReader.py:108-109 | an append keeps the old contents and adds the new entry last; the oldest entry is dropped exactly when the buffer was already full |
| `Fifo.PushAllIsWindow` | voltageReader.py:108-109 | appending entries one at a time leaves the newest `cap` entries of the whole history, oldest first |
| `Fifo.FromEmpty` | voltageReader.py:93-94 | after n appends to a fresh deque it holds exactly min(n, cap) entries, the most recent ones, in arrival order |
| `Files.Append` | voltageReader.py:101-103 | opening in append mode and writing creates the file if needed, adds exactly one line at its end, and changes no other path |
| `Files.AppendTo` | voltageReader.py:101-103 | with an output file exactly one line is appended to it and nothing else changes; with none the file system is unchanged |
| `Instrument.RandInt` | voltageReader.py:65 | `randint(1, 10)` yields an integer in the inclusive range |
| `Instrument.RandIntCovers` | voltageReader.py:65 | every value of the range can be drawn |
| `Instrument.DummyRead` | voltageReader.py:63-66 | the synthetic source returns the clock reading and a whole number of volts in 1..10 |
| `Instrument.HardwareRead` | voltageReader.py:42-47 | the hardware source fails when the reply is not a number; otherwise its timestamp is equidistant from both clock readings, lies between them when t0 <= t1, and its value is the reply |
| `Acquisition.Init` | voltageReader.py:79-94 | a new window is idle, has no origin, empty buffers and no output file, and satisfies the controller invariant |
| `Acquisition.IntervalOf` | voltageReader.py:200-201 | the lookup succeeds exactly for the five labels, and the interval is always one of 10, 100, 500, 1000, 10000 ms |
| `Acquisition.IntervalsOffered` | voltageReader.py:75-76 | the set of offered intervals is exactly {10, 100, 500, 1000, 10000} |
| `Acquisition.OutputName` | voltageReader.py:184-193 | empty text gives no file; an existing path gets `_1` appended; any other path is kept; the chosen name is never an existing file named by the text |
| `Acquisition.StartDaq` | voltageReader.py:182-209 | the output name follows the naming rule; only the header is appended, to the chosen file; the file the text names, if it exists, is untouched; the lookup fails exactly for an unknown label; from idle with a valid label it arms the timer with that label's interval; when running, or after a failed lookup, `running` and the timer are unchanged; the name field is always locked and the selector only after a successful lookup; origin and buffers are untouched; the invariant is preserved |
| `Acquisition.StopDaq` | voltageReader.py:211-220 | inputs are always unlocked and the result is idle; the timer is disarmed when it was running and left alone otherwise; origin, buffers and files are untouched |
| `Acquisition.StopIdempotent` | voltageReader.py:211-220 | stopping twice equals stopping once |
| `Acquisition.ToggleDaq` | voltageReader.py:174-180 | a successful press flips `running`; it fails only from idle with an unknown label; the origin and buffers are untouched |
| `Acquisition.ToggleTwice` | voltageReader.py:174-180 | two presses from idle with a valid label end idle, disarmed, unlocked, with the origin unchanged |
| `Acquisition.CloseAll` | voltageReader.py:167-172 | quitting always leaves the controller idle; from idle nothing changes; data and files are untouched |
| `Acquisition.UpdateValue` | voltageReader.py:97-109 | a tick fixes the origin only when unset and keeps it otherwise; the newest buffer entries are the elapsed time (timestamp minus origin; 0 on the first tick) and the value; exactly that data line is appended to the output file, and nothing is written without one; control state is unchanged |
| `Acquisition.TickShiftsBuffers` | voltageReader.py:108-109 | a tick appends the elapsed time and value last and drops the oldest entry only from a full buffer |
| `Acquisition.SuffixedNameMayExist` | voltageReader.py:189-196 | when the `_1` name also exists, the header is appended to that existing file |
| `Session.Apply` | voltageReader.py:89-143 | a timer expiry runs `updateValue` only while the timer is armed and otherwise changes nothing; an expiry that fires keeps `running`, the timer and the output name; an event that takes no sample keeps the origin and both buffers; Quit always leaves the controller idle; every event keeps the controller invariant |
| `Session.RunPreservesInv` | voltageReader.py:79-220 | in every reachable state the buffers have equal length of at most 100, `running` holds exactly when the timer is armed with an offered interval, the buffers are empty exactly while no origin is set, the output file exists, and the inputs are locked while running |
| `Session.RunHistory` | voltageReader.py:97-109 | over any run the origin is the first sample ever taken and never changes again; each buffer is the newest-100 window of its whole history; each elapsed time is timestamp minus origin |
| `Session.FromConstruction` | voltageReader.py:85-109 | after n samples since construction both buffers hold min(n, 100) entries, the most recent ones in order, measured from the first sample; while n <= 100 the oldest buffered reading is at elapsed time 0 |
| `Session.RunLog` | voltageReader.py:97-103 | while no button is pressed the output file gains exactly one data line per sample taken, in order, measured from the origin in force or, when none is set yet, from the first of those samples, and no other file changes; without an output file, or when no sample is taken, nothing is written |
| `Session.ThreeTicksScenario` | voltageReader.py:97-109 | three ticks at 1000.0, 1000.1 and 1000.2 leave elapsed times 0, 0.1, 0.2 |
| `Session.CollisionScenario` | voltageReader.py:184-196 | starting on an existing `out.txt` writes the header to `out.txt_1` and leaves `out.txt` untouched |
| `Session.SecondSessionKeepsOrigin` | voltageReader.py:85-100 | stop then start keeps the first session's origin, so the second session's first reading is not at 0 |

## Left out

- Qt widgets, window layout, button and status-bar text, and logging. Widget state is reduced to two "input unlocked" flags.
- The QTimer scheduling. The timer is an "armed with interval" field. A tick is delivered only while it is armed, and `UpdateValue` requires that.
- matplotlib plotting and canvas redraws (voltageReader.py:111-113): these are output only.
- VISA resource management, SCPI commands, `configDC` and its `%.1e` formatting: foreign I/O. The hardware source's reply reaches the model already parsed, or `None` when it is not a number.
- Clock readings, `randint`'s draw and the meter's reply are inputs to the instrument functions. A failing read during a tick is not modelled. The tick takes an already-obtained sample; in the code such a failure is an unhandled exception.
- Real file handles and the `%f` text formatting. Files are sequences of abstract `Header` / `Data(elapsed, value)` lines. The handles the code leaves open are not modelled.
- Floating-point rounding: timestamps, elapsed times and values are exact `real`s.
- The process exit in `CloseAll`. Events after Quit are not excluded from a run.
- The echo of the adjusted name into the output-name field. `StartDaq` takes the field's text as a parameter, and the caller supplies whatever the field holds.
- `ofname` is not set in the code before the first start. The model starts it at `None`. No tick can happen before a start, so this difference is never observed.
- Session.RunLog: stated only for stretches of a run without button presses, because a press from idle may pick a new output file.
- Acquisition.OutputName: "the file exists" is read as "the path is a key of the file map". Directories, which `os.path.exists` also reports, and different spellings of one file (`./out.txt`, symbolic links) are not modelled, so the promise that an existing file is never chosen holds only up to such aliases.
- Acquisition.StartDaq: opening or writing the output file never fails in the model. In the code an `IOError` there escapes the slot after `ofname` is set, leaving the controller idle with the name field not yet locked.
- Acquisition.UpdateValue: the append to the output file never fails in the model. In the code an `IOError` there escapes after the origin is fixed but before either buffer is updated.

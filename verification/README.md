# STM32F1 USB state-machine decoder: the interval segmenter

This project models the logic inside a sigrok protocol decoder. Three probe lines, FSM#0..FSM#2,
expose the state of a USB control pipe as a 3-bit code. The decoder turns the edges on those lines
into labelled intervals of stream positions, one per state. It keeps four integers:

- `begin` and `end`: the pending interval;
- `cur`: the code of the latest observation;
- `_old` (called `prev` here): the code to be displayed.

`cur` holds -1 until the first observation. `_old` holds -1 until the second observation, or until
a flush that follows an observation, because it takes the value `cur` had before. Three events
drive the decoder:

- an observation, which is one iteration of the decode loop;
- a flush at the end of a block of samples;
- a reset.

Each event updates the state and may hand one interval to the annotation sink, labelled with an entry
of a static eight-entry table.

Modules, one per concept:

- `Results`: `Option` and `Result`.
- `FsmStates`: the state enumeration, the label table `Values` and its lookup.
- `Channels`: a pin reading and the state code it encodes.
- `Segmenter`: the decoder state, the events, and the pure step functions for observe, flush and
  reset. It also has `Put`, the emission, and `Run`, a fold over a sequence of events.
- `Sessions`: properties of whole event sequences, proved equal to a closed-form reference timeline.

A lookup of a code missing from the table raises `KeyError` in the decoder. The model returns
`Failure(code)` in that case. `Step` and `RunNeverFaults` prove that no reachable state gets there.

The model records these behaviours of the code:

- A block boundary inside a run of one code does not produce one merged interval. A block ends with a
  flush, which closes the pending interval at its `endsample` and makes that the next start. The next
  observation then opens a new interval there, with the same label if the code is unchanged.
  `Sessions.BlockBoundaryIsNotMerged` shows this. Take (0,0,0) at 0, (1,0,0) at 10, a flush at 25,
  (0,1,0) at 40 and a flush at 50. The code emits [0,10) with code 0, [10,25) and [25,40) with code 1,
  and [40,50) with code 2. A flush keeps `begin` only when no new code has been observed since the last
  display, as after a second flush in a row.
- The first observation's sample number is ignored. The first interval starts at the stored `end`,
  which is 0 unless a flush came before any observation. In that case it is that flush's `endsample`.
- A code outside the table would raise rather than produce an "unknown" label. Codes are always 0..7,
  so this never happens.
- A flush is not terminal. Observations may follow it, and the next interval then starts at the
  flush's `endsample`.
- The label table is modelled as declared. The numeric strings of `e_DataIn` (code 3) and `e_StatusOut`
  (code 4) are '4' and '3'. Every other entry shows its own code.

## Model

| member | source | states |
|---|---|---|
| FsmStates.Code | pd.py:44-53 | every state has a code in 0..7 that names that state back |
| FsmStates.StateOf | pd.py:44-53 | exactly the integers 0..7 name a state |
| FsmStates.Lookup | pd.py:55-64 | the table has an entry exactly for codes 0..7, and the entry's annotation class is the state with that code |
| FsmStates.DisplayNumber | pd.py:59-60 | the displayed number equals the code except for codes 3 and 4, which show each other's number |
| FsmStates.EntryMatchesCode | pd.py:55-64 | each entry is derived from its key: class = state of the key, long name "<name> = <key>", short name = enumerator name, numeric string = digit of the key with 3 and 4 swapped |
| FsmStates.NumericStringIsCodeUnlessSwapped | pd.py:59-60 | an entry's numeric string is its code's digit if and only if the code is neither 3 nor 4 |
| Channels.StateCode | pd.py:95 | the weighted pin sum always lies in 0..7 and is always a key of the label table |
| Channels.StateCodeInjective | pd.py:85-95 | two pin readings give the same code if and only if they are equal, so an edge on any line changes the code |
| Segmenter.Initial | pd.py:115-119 | the initial state has `begin` and `end` at 0, holds no code in either slot, and is reachable |
| Segmenter.Put | pd.py:121-130 | nothing is emitted if and only if no code is to be displayed; a key error if and only if the code is outside the table; otherwise the pending interval, labelled with the table entry `Values[prev]` of the displayed code |
| Segmenter.ObserveStep | pd.py:80-97 | the first observation emits nothing and keeps the boundaries; later ones move the boundary to the sample number and emit the interval ending there, labelled with the code held before the observation |
| Segmenter.FlushStep | pd.py:99-109 | a flush ends the pending interval at `endsample`, advances its start only if the code changed since the last display, makes the displayed code the current one, and emits nothing before any observation |
| Segmenter.ResetStep | pd.py:77-78 | a reset restores the initial state exactly and emits nothing |
| Segmenter.Step | pd.py:80-109 | from a reachable state, no event causes a failed table lookup, and the next state is reachable |
| Segmenter.Run | pd.py:80-81 | the decode loop over a sequence of events emits at most one interval per event, and it stops early only on the key error of a code outside the label table |
| Segmenter.FlushKeepsOrAdvancesBegin | pd.py:104-106 | a flush keeps `begin` or moves it to the last boundary; with ordered positions its interval is not reversed |
| Segmenter.RepeatedFlushReemitsStart | pd.py:102-109 | a second flush in a row keeps the start and label of the first and changes only the end |
| Sessions.RunNeverFaults | pd.py:121-130 | no sequence of events from a reachable state makes the lookup `_values[_old]` fail |
| Sessions.ObservationsFollowReference | pd.py:80-97 | an observation run from the initial state emits exactly the reference timeline: interval j goes from sample j (position 0 for the first) to sample j+1, labelled with sample j's code |
| Sessions.ReferenceTimelineShape | pd.py:91-97 | the reference timeline has one interval per observation after the first, starting at 0, labelled by the observation that opened it, contiguous, with `begin <= end` when sample numbers never decrease and `begin < end` when they strictly increase |
| Sessions.ObservationIntervalsContiguous | pd.py:91-97 | observation runs emit one interval per observation after the first; the first starts at 0, consecutive ones are contiguous, none is reversed (`begin <= end`) when sample numbers never decrease, and none is empty (`begin < end`) when they strictly increase |
| Sessions.FlushClosesReference | pd.py:99-109 | a flush after an observation run emits the reference timeline followed by one closing interval to `endsample`; with no observation it emits nothing and only moves `end` |
| Sessions.ClosedTimelineShape | pd.py:80-109 | the reference timeline closed by a flush has one interval per observation from 0 to `endsample`, contiguous except for a closing interval after a repeated code, which re-emits the previous start and label |
| Sessions.ClosingIntervalLinked | pd.py:104-109 | the flush's closing interval starts where the last observation's interval ends, unless the last observation repeated the code before it, when it re-emits that interval's start and label |
| Sessions.SessionCover | pd.py:80-109 | observations closed by a flush emit one interval per observation, from 0 to `endsample`, all linked; only a final flush after a repeated code re-emits the previous start; a flush with no observation emits nothing |
| Sessions.ResetFreeRunsChained | pd.py:91-106 | in any reset-free run, each interval starts where the previous one ended or re-emits its start and label; the last interval emitted is always the pending one |
| Sessions.OrderedRunsWellFormed | pd.py:91-106 | with non-decreasing positions, every emitted interval has begin <= end |
| Sessions.ResetStartsFreshSession | pd.py:77-78 | after a reset, a run emits what a run from the initial state would, appended to what came before |
| Sessions.BlockBoundaryIsNotMerged | pd.py:91-109 | observations at 0, 10 and 40 with a flush at 25 inside the run of code 1 yield four intervals, with code 1 split in two at the flush |
| Sessions.SingleObservationSession | pd.py:80-109 | one observation of code 0 at 0 then a flush at 5 yields the single interval [0,5) with code 0 |

## Left out

- The host API (`self.wait`, `self.put`, `self.register`, `start`) is not modelled. The pins and the
  sample number that `wait` returns are the parameters of an observation event. What `put` receives is
  the emitted value.
- The meaning of the edge-wait conditions is not modelled, because it belongs to the host. An
  observation may carry any pin reading, including one equal to the previous reading.
- `samplenum` and `endsample` are modelled as unbounded naturals. The host's 64-bit sample counters
  never wrap in the model.
- `metadata` and `samplerate` are left out. The rate is stored but never used in any computation.
- The static declarations (`channels`, `annotations`, `annotation_rows`, the module-level constants,
  the decoder's identity fields) are left out. So is the `FsmStates` enumeration beyond its role as
  codes 0..7. None of them takes part in a computation.
- Flush and reset are modelled as atomic events that happen between iterations of the decode loop.
  After a reset, the host is taken to restart `decode()`. A reset that lands while the loop is blocked
  in the edge-wait, with that same loop then continuing, is not modelled. The loop chose its branch
  before the wait, so its next reading would set `end` to the sample number instead of keeping 0.
- The endless `while True` loop is modelled as `Run`, a fold of single steps over a finite sequence
  of events.
- A raised `KeyError` ends a run with `Failure`. What the host does with the exception is not
  modelled.

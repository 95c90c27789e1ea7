# Rule of three versus rule of five: a Dafny model

This program benchmarks the standard operations on a large heap-owning
container in two styles:

- `HolderOld` is C++98's "rule of three": a constructor, a copy
  constructor, copy assignment and a destructor.
- `Holder` is C++11's "rule of five": it adds a move constructor and move
  assignment. Both moves steal the other object's buffer and leave it
  vacant (a null buffer of size 0).

A stack of start instants (`vStart`) brackets each timed region:

- `setChrono0` pushes the current instant;
- `showChrono` pops the most recent one and reports the elapsed time
  against a label.

`process<holder>` runs the five operations of one style, each in its own
timed region, inside an enclosing "Total computation" region.
`createHolder<holder>` builds two containers and returns one of them, picked
by the parity of the day of the month, so that the compiler cannot elide the
copy or move of the result.

The model has five modules:

- `Chrono` holds the timer stack.
  - `ChronoStack` is a class whose `starts` sequence is the global vector.
    A ghost `trace` on it records every timer call made, so that properties
    of whole call sequences can be stated about the methods that make them.
  - `Push` and `Pop` are the pure specification of its two operations.
  - `Replay` runs a whole sequence of timer steps on values.
  - `Net`, `NeverUnderflows` and `Balanced` characterise the step sequences
    that never pop an empty stack and leave it as they found it.
- `Buffers` is the buffer copy both classes perform: allocate `n` cells,
  then `std::copy` `n` cells over.
- `OldSchool` holds `HolderOld`.
- `NewSchool` holds `Holder`.
- `Benchmark` holds the constants, `createHolder`, `process` and `main`.
  - Each template instantiation is its own method.
  - The reports `process` produces are specified by the pure
    `ProcessReports`.
  - `ProcessSteps` is the list of timer calls `process` makes, and
    `MainSteps` the list `main` makes. The methods are proved to record
    exactly those calls in the trace. The lists are proved balanced, and
    replaying them yields exactly the reports.

The container buffers are `array<int>` fields, updated in place. The
ghost `Contents()` of each class is the sequence of cells the container owns.
The environment is passed in as parameters:

- `Time` is an integer instant, and the successive readings of the clock
  are a `seq<Time>`.
- The day of the month is a `nat`.
- The console line `showChrono` prints is represented by the `Measurement`
  it returns, which holds the label and the start and stop instants.

## Model

| member | source | states |
|---|---|---|
| Chrono.Push | main.cpp:28 | pushing an instant grows the stack by one, and popping afterwards gives back that instant and the previous stack |
| Chrono.Pop | main.cpp:25 | popping fails exactly on the empty stack; otherwise it returns the last element pushed and the stack below it |
| Chrono.ChronoStack.constructor | main.cpp:21 | the global start stack begins empty |
| Chrono.ChronoStack.SetChrono0 | main.cpp:28 | the new stack is the old one with the current instant pushed, and the call is recorded in the trace as a start at that instant |
| Chrono.ChronoStack.ShowChrono | main.cpp:23-27 | on an empty stack: an error, with the stack unchanged; otherwise a measurement labelled `s`, from the most recent start to now, with that start popped. Either way the call is recorded in the trace as a stop labelled `s` |
| Chrono.NetAppend | main.cpp:23-28 | the net stack growth of timer steps adds up over concatenation |
| Chrono.ReplayFrame | main.cpp:23-28 | steps that never dig below the top `extra` entries succeed; they never touch the entries beneath, and the stack height ends at its start plus the net growth |
| Chrono.ReplayHeight | main.cpp:23-28 | after a successful replay, the stack height is the initial height plus the net growth |
| Chrono.ReplayPrefix | main.cpp:23-28 | if a sequence of timer steps replays successfully, so does every prefix of it |
| Chrono.ReplayOkIff | main.cpp:23-28 | a sequence of timer steps replays without popping an empty stack if and only if no prefix has a net growth that exceeds the initial depth downwards |
| Chrono.ReplayBalanced | main.cpp:23-28 | a balanced sequence of steps succeeds on any stack and leaves it exactly as it found it |
| Chrono.BalancedConcat | main.cpp:182-204 | two balanced step sequences in a row are balanced |
| Chrono.BalancedWrap | main.cpp:182-204 | a balanced sequence bracketed by one start and one stop is balanced |
| Chrono.ReplayAppend | main.cpp:23-28 | replaying a concatenation is replaying the first part, then the second from the stack it left; the reports are the concatenation of the two report lists |
| Chrono.ReplayTimed | main.cpp:182-186 | one start/stop region leaves the stack unchanged and reports exactly its own measurement |
| Chrono.ReplayRegions | main.cpp:184-202 | a series of back-to-back timed regions leaves the stack unchanged and reports exactly their measurements, in order |
| Chrono.RegionsBalanced | main.cpp:184-202 | a series of back-to-back timed regions is balanced |
| Buffers.Duplicate | main.cpp:46-47 | a fresh array of exactly `n` cells whose contents are the first `n` cells of the source, when there is one |
| OldSchool.HolderOld.Contents | main.cpp:68-69 | the cells the container owns number exactly its recorded size |
| OldSchool.HolderOld.constructor | main.cpp:38-42 | a freshly allocated buffer of the requested size |
| OldSchool.HolderOld.Copy | main.cpp:44-49 | a new, distinct buffer with the same size and the same contents as the source |
| OldSchool.HolderOld.CopyAssign | main.cpp:51-59 | self-assignment changes nothing; otherwise a fresh buffer that equals the source in size and contents. The source is untouched, and the result is the object itself |
| NewSchool.Holder.Contents | main.cpp:132-133 | the cells owned number exactly the recorded size, and a vacant container owns none |
| NewSchool.Holder.constructor | main.cpp:79-83 | a freshly allocated, non-vacant buffer of the requested size |
| NewSchool.Holder.Copy | main.cpp:85-90 | a new, distinct, non-vacant buffer with the same size and contents as the source |
| NewSchool.Holder.Move | main.cpp:92-98 | takes over the source's buffer, size and contents; the source is left vacant (null buffer, size 0) |
| NewSchool.Holder.CopyAssign | main.cpp:100-108 | self-assignment changes nothing; otherwise a fresh non-vacant buffer equal to the source's in size and contents. The source is untouched |
| NewSchool.Holder.MoveAssign | main.cpp:110-123 | self-assignment changes nothing; otherwise the target takes over the source's buffer, size and contents, and the source is left vacant |
| Benchmark.CreateHolderOld | main.cpp:146-177 | whatever the day of the month, returns a valid, freshly built container of the requested size |
| Benchmark.CreateHolder | main.cpp:146-177 | whatever the day of the month, returns a valid, non-vacant, freshly built container of the requested size |
| Benchmark.ProcessStepsBalanced | main.cpp:182-204 | the timer steps of `process` are balanced: no pop from an empty stack, and as many pops as pushes |
| Benchmark.ProcessStepsNested | main.cpp:182-204 | the calls of `process` are the five operation regions, one after the other, inside the region of the total |
| Benchmark.ProcessStepsReplay | main.cpp:182-204 | replaying the timer steps of `process` on any stack restores it and yields exactly the six reports of `process`, in order |
| Benchmark.ProcessOld | main.cpp:179-206 | the timer calls it makes, as recorded in the trace, are exactly `ProcessSteps`. The timer stack ends as it began, and the reports are the six measurements of `process`. `h1` and `h3` hold `arraysSize2` cells and `h2` ends with `arraysSize1`, in three distinct buffers |
| Benchmark.ProcessNew | main.cpp:179-206 | as for `ProcessOld`; moreover `h1`, `h2` and `h3` are not vacant. (The temporary moved into `h2` and the local `createHolder` returns are left vacant, and are not returned.) |
| Benchmark.LvalueDemo | main.cpp:227-241 | its timer calls, as recorded in the trace, are two back-to-back regions that report `copy-constructor` then `move-constructor`, and the timer stack ends as it began. The copy is a distinct buffer equal to its source; `std::move` leaves the moved-from container vacant, and the adopter holds `arraysSize0` cells |
| Benchmark.DemoStepsTrace | main.cpp:227-241 | the four timer calls of the demonstration are back-to-back regions, one for each of its two reports |
| Benchmark.MainStepsBalanced | main.cpp:209-245 | the timer calls of `main` (both `process` runs, then the demonstration) are balanced |
| Benchmark.MainStepsReplay | main.cpp:209-245 | replaying the timer calls of `main` on any stack restores it and yields exactly the reports of `main`, in order |
| Benchmark.RunBenchmark | main.cpp:209-245 | the timer calls it makes, as recorded in the trace, are exactly `MainSteps`. The timer stack ends as it began, and the reports are those of both `process` runs followed by the two demonstration regions |

## Left out

- Clock and calendar: `system_clock::now()` and `localtime(...)->tm_mday` are
  read from the environment. They become parameters: a sequence of clock
  readings and the day of the month.
- Elapsed time as a `double` (`duration<double>::count()`) is not computed.
  A `Measurement` records the start and stop instants, and the elapsed time
  is their difference. Floating point is not modelled.
- Console output (`cout`, the banners in `main`) is not modelled. Each
  `showChrono` line is represented by the `Measurement` it returns.
- Chrono.ChronoStack.ShowChrono: calling `back()`/`pop_back()` on an empty
  vector is undefined behaviour in C++. The model returns
  `Err(EmptyStackPop)` there and leaves the stack unchanged. The methods
  modelling `process`, the demonstration and `main` never reach that case:
  they read the measurement out of every `ShowChrono` result with `.value`,
  and that is verified to be defined at each call.
- Destructors and `delete[]` are not modelled. Dafny is garbage-collected,
  so releasing a buffer is dropping the reference to it. Nothing proves
  release or the absence of leaks or double frees.
- Allocation failure (`std::bad_alloc` on the multi-gigabyte buffers) is not
  modelled. Allocation always succeeds.
- The constructors take `int size`, which is stored in a `size_t`. A negative
  size is not modelled: sizes are `nat`. The `int`/`size_t` widths are not
  modelled either, and the constants are far below both limits.
- Buffer cells are never initialised by `new int[size]`. The model's cells
  are arbitrary integers, and no contract relies on them.
- The return-value optimisation is not modelled. In `createHolder`,
  `return h01;` copies (`HolderOld`) or moves (`Holder`, where the implicit
  move on return applies). `holder h3(createHolder(...))` is taken as the
  factory's result itself, as in C++17's guaranteed elision.
- Execution speed, the point of the benchmark, is outside what the model
  states.
- `arraysSize3` is declared and never used, in the source and in the model
  (`ArraysSize3`) alike.
- The methods modelling `process` and the demonstration return their local
  containers, so that their final state can be stated. In the source they
  go out of scope.
- `new int[0]` returns a non-null pointer, so a container constructed or
  copied with size 0 is not vacant. Only a move leaves a container vacant.
- Exclusive ownership is not an invariant of the classes. `Valid()` speaks
  of one container, so the contracts also admit two distinct containers
  sharing one buffer. On such a pair, `Holder`'s move assignment would free
  the very buffer it then adopts (the `delete[]` at main.cpp:114). The
  states the program reaches never have such a pair: the methods modelling
  `process` end with three distinct buffers.

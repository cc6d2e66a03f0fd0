# painter: drawing operations, command parser and event loop

A Dafny model of the core of a small Go drawing program. A text script of
commands (`white`, `green`, `bgrect`, `figure`, `move`, `reset`, `update`)
is parsed into a list of drawing operations. The operations are posted to
an event loop that applies them, one at a time, to an 800x800 texture. When
an operation makes the frame ready, the loop hands the texture to a receiver
and swaps its two textures.

The project has six modules:

- `Util` (`util.dfy`) holds `Option` and `Result`.
- `Ops` (`ops.dfy`) models `painter/op.go`. The `Operation` variants are a
  datatype. `Apply` and `ApplyList` are the `Do` methods, acting on a
  `Texture` class that records every `Fill` call. They are proved against
  the functions `Fills`, `Actions` and `Ready`.
- `Lang` (`parser.dfy`) models `painter/lang/parser.go`. `Parser` is a class
  with the four fields of the Go struct. Its methods are proved against
  value-level functions:
  - `Step` is one line;
  - `Accumulate` is a script;
  - `Emit` is `finalize`;
  - `ParseResult` is the result of `Parse`.
- `LangScenarios` (`parser_scenarios.dfy`) states the cases of the parser's
  test table over the model.
- `Events` (`loop.dfy`) models `painter/loop.go`. `MessageQueue`, `Receiver`
  and `Loop` are classes. One iteration of `eventProcess` is the method
  `Loop.Step`. It is proved against the value-level `Advance` on a `Config`.
  `Outcome` gives, in closed form, where a configuration ends once its queue
  is drained: the textures swap once per ready entry, and the receiver is
  given them alternately. The loop methods keep `Outcome` as their loop
  invariant.
- `LoopScenarios` (`loop_scenarios.dfy`) replays the three event loop tests
  on the corrected loop `Loop.EventProcessStopping` (see Findings). As
  written, each test blocks in `StopAndWait` (painter/loop_test.go:31, 62
  and 78).

A few terms used below:

- `num` is the number parser. `strconv.ParseFloat` becomes a parameter
  `num: string -> Result<real, string>`, and the script is given already
  split into words.
- Closures passed as `OperationFunc` are the closed set `Action`:
  - `RequestStop` is the closure `StopAndWait` posts;
  - `Record(name)` is the closures of the loop tests, which append a label
    to a list.

  What the closures write lives in the `Captures` class.
- Go's `int(float64)` conversion is `Trunc`: truncation toward zero on
  exact reals.

## Model

| member | source | states |
|---|---|---|
| Ops.MakeRect | painter/op.go:70 | `image.Rect` gives a well-formed rectangle with the same two x and the same two y coordinates, and keeps already ordered corners as given |
| Ops.Trunc | painter/op.go:66-69 | `int(x)` of a float truncates toward zero: for x >= 0 it is the largest integer not above x, for x <= 0 the smallest not below x |
| Ops.Scale | painter/op.go:79-80 | a normalised coordinate in [0, 1] scaled to a non-negative extent is a pixel within [0, extent] |
| Ops.CrossBars | painter/op.go:82-101 | the figure's two bars: a 60x300 vertical bar on the left edge of the 300x300 box around the centre, and a 300x60 horizontal bar centred on the centre, both inside the box |
| Ops.Texture.constructor | painter/loop_test.go:93-95 | a new texture has no fills and takes its bounds from the constructor; the mock ignores the size and always reports 800x800 (loop_test.go:114-116), which is the size Start asks for |
| Ops.Texture.Fill | painter/loop_test.go:120-122 | a fill is appended to the texture's log and nothing else changes |
| Ops.Captures.Run | painter/loop.go:57-59 | running the stop closure sets stopReq; running a recording closure appends its label |
| Ops.Apply | painter/op.go:11-107 | `Do` returns exactly `Ready(op)`, appends exactly `Fills(op)` to the texture, and runs exactly the closures `Actions(op)`, in order |
| Ops.ApplyList | painter/op.go:24-32 | `OperationList.Do` applies every member in order without stopping at a ready one: its fills and closures are those of the members concatenated, and it is ready iff some member is |
| Ops.LeafEffects | painter/op.go:15-107 | per variant: only UpdateOp is ready; a closure runs once and draws nothing; White, Green and Reset fill the whole texture in white, green and black; BgRect fills one black rectangle; Figure fills two yellow ones |
| Ops.BgRectWithinTexture | painter/op.go:65-72 | a BgRect with coordinates in [0, 1] fills one black rectangle that lies inside the texture |
| Ops.ListAppend | painter/op.go:24-32 | applying the list a + b draws and runs what a does and then what b does, and is ready iff a or b is |
| Ops.ListReadyAny | painter/op.go:24-32 | a list is ready iff one of its members is ready |
| Ops.Leaves | painter/op.go:22 | flattening an operation yields only non-list operations |
| Ops.FlattenAgrees | painter/op.go:22-32 | a nested operation list draws, runs and is ready exactly as its flattened leaves; it is ready iff UpdateOp is among them |
| Ops.ListFlattenAgrees | painter/op.go:24-32 | the same for a list of operations |
| Lang.Clamp | painter/lang/parser.go:130-138 | clamp returns the value when it lies in [lo, hi], the lower bound below it and (when not below lo) the upper bound above hi; the result always lies in [lo, hi] |
| Lang.MoveAll | painter/lang/parser.go:83-86 | move keeps the number of figures and every moved figure lies in the unit square; each coordinate is its predecessor plus the offset when that stays in [0, 1], 0 when it falls below and 1 when it rises above |
| Lang.ErrorOf | painter/lang/parser.go:56-59 | a number yields no error iff it parsed |
| Lang.FirstFailure | painter/lang/parser.go:121-128 | firstNonNil is nil iff every error is nil; otherwise it is the first non-nil one |
| Lang.FirstNonNil | painter/lang/parser.go:121-128 | the loop returns the first non-nil error |
| Lang.FigureOps | painter/lang/parser.go:109-111 | each figure becomes its own Figure operation, in the same order |
| Lang.Message | painter/lang/parser.go:54-93 | the error texts: "<cmd> requires ", then the count in decimal digits, then " arguments", for a wrong argument count; "invalid number in <cmd>: " followed by the cause, which ends the text; "unknown command: " followed by exactly the word |
| Lang.Numeral | painter/lang/parser.go:54-76 | the argument count in those texts (4 or 2) is written as a non-empty string of decimal digits without a leading zero |
| Lang.NumeralValue | painter/lang/parser.go:54-76 | reading the printed digits back gives the count |
| Lang.Parser.constructor | painter/lang/parser.go:13-18 | a zero-valued Parser has empty slots and no update |
| Lang.Parser.Initialize | painter/lang/parser.go:20-25 | initialize empties all four slots |
| Lang.Parser.Parse | painter/lang/parser.go:27-39 | Parse feeds the lines in order and stops at the first error, which it returns; otherwise it returns finalize's list. The state is not reset first. On success only hasUpdate is cleared; on error the state after the failing line's predecessors is kept |
| Lang.Parser.ParseLine | painter/lang/parser.go:41-96 | a line either succeeds and moves the slots to `Step`'s state, or fails with `Step`'s error and leaves every slot unchanged |
| Lang.Parser.Finalize | painter/lang/parser.go:98-119 | finalize returns `Emit` of the slots and clears hasUpdate only |
| Lang.AccumulateAppend | painter/lang/parser.go:31-36 | parsing a + b is parsing a, then, if a had no error, parsing b from where a left off |
| Lang.AccumulateKeepsWf | painter/lang/parser.go:47-91 | the colour slot only ever holds WhiteFill, GreenFill or Reset |
| Lang.BlankLinesIgnored | painter/lang/parser.go:42-45 | lines with no words change nothing |
| Lang.BackgroundLastWins | painter/lang/parser.go:48-51 | after an error-free script the colour slot holds the operation of the last white, green or reset line, or its earlier value when there is none |
| Lang.StepSlots | painter/lang/parser.go:47-91 | what each successful command does to the four slots: white and green set the colour, bgrect the rectangle, figure appends, move replaces the figures by `MoveAll` of them with the parsed offsets, update sets the flag, reset leaves only the Reset colour; the other slots are kept |
| Lang.CommandErrors | painter/lang/parser.go:52-93 | an unknown first word is reported iff it is no command; a command taking numbers reports the argument count iff it has the wrong number of arguments; the others always succeed |
| Lang.NumberErrors | painter/lang/parser.go:56-82 | with the right argument count, a numeric command succeeds iff every argument parses; otherwise the error is that of the first argument that does not |
| Lang.ResetForgetsEarlier | painter/lang/parser.go:87-89 | whatever came before an error-free prefix and a line whose first word is reset (further words ignored) is forgotten: the script parses as the part after the reset, from the reset state |
| Lang.EmitRanks | painter/lang/parser.go:98-119 | finalize's list is the rectangle part, the colour part, the figures and the update part, in that order |
| Lang.EmitOrder | painter/lang/parser.go:98-119 | in finalize's list, rectangle comes before colour, colour before figures, figures before update, and only figures repeat |
| Lang.EmitLayout | painter/lang/parser.go:101-116 | the rectangle comes first when set, UpdateOp comes last when the flag is set, and the figures come in insertion order just before it |
| Lang.EmitColour | painter/lang/parser.go:105-107 | a background colour is emitted iff one was set |
| Lang.EmitUpdate | painter/lang/parser.go:113-116 | UpdateOp is emitted iff the flag is set |
| Lang.FigureOpsNotReady | painter/lang/parser.go:109-111 | the figures' operations never make the frame ready |
| Lang.EmittedListReady | painter/lang/parser.go:113-116 | applying finalize's list makes the frame ready iff an update line was seen |
| Lang.EmittedListDraws | painter/lang/parser.go:98-119 | applying finalize's list draws the rectangle, then the colour, then the figures, and nothing for the update |
| LangScenarios.ColourCommands | painter/lang/parser_test.go:20-38 | an empty script gives no operations; `white` and `green` give their fill |
| LangScenarios.ShapeCommands | painter/lang/parser_test.go:39-57 | `bgrect 0.1 0.2 0.3 0.4` and `figure 0.5 0.6` give the matching operation |
| LangScenarios.ArgumentErrorScripts | painter/lang/parser_test.go:46-62 | bgrect with two arguments fails with the argument count error; a figure with unreadable numbers fails with the first number's error |
| LangScenarios.ArgumentCountMessage | painter/lang/parser.go:54 | the argument count error reads "bgrect requires 4 arguments" |
| LangScenarios.FigureCountMessage | painter/lang/parser.go:66 | the argument count error of figure reads "figure requires 2 arguments" |
| LangScenarios.MoveCountMessage | painter/lang/parser.go:76 | the argument count error of move reads "move requires 2 arguments" |
| LangScenarios.UnknownCommandMessage | painter/lang/parser.go:93 | the unknown command error reads "unknown command: invalidcommand" |
| LangScenarios.InvalidNumberMessage | painter/lang/parser.go:71 | the error of the script `figure abc def` reads "invalid number in figure" followed by the cause |
| LangScenarios.MoveScript | painter/lang/parser_test.go:63-70 | a figure at (0.5, 0.5) moved by (0.1, 0.1) is emitted at (0.6, 0.6), followed by UpdateOp |
| LangScenarios.ControlCommands | painter/lang/parser_test.go:71-84 | `reset` alone gives Reset; `update` alone gives UpdateOp |
| LangScenarios.OrderScript | painter/lang/parser_test.go:85-98 | bgrect, green, figure, move and update are emitted as rectangle, colour, moved figure, update |
| LangScenarios.UnknownCommandScript | painter/lang/parser_test.go:99-103 | an unknown word fails with the unknown command error |
| LangScenarios.ResetScript | painter/lang/parser_test.go:104-116 | reset drops the earlier colour and figure |
| LangScenarios.OverrideScript | painter/lang/parser_test.go:117-128 | a later green overrides an earlier white; the rectangle stays |
| Events.MessageQueue.Push | painter/loop.go:69-77 | an entry is appended at the back of the queue |
| Events.MessageQueue.Pull | painter/loop.go:79-92 | the front entry is removed and returned |
| Events.Receiver.Update | painter/loop_test.go:87-89 | the texture handed over becomes the last one recorded, which is the test receiver's `lastTexture`; the model also keeps every earlier texture and a copy of its fills at hand-over, an observation the Go receiver does not make |
| Events.AdvanceKeepsOutcome | painter/loop.go:41-46 | one iteration of the loop does not change where the loop ends up once the queue is drained |
| Events.FramesPerReadyEntry | painter/loop.go:42-45 | the receiver is given one frame per entry that makes the frame ready |
| Events.ProcessAppend | painter/loop.go:41-46 | the loop processes a queue q1 + q2 as q1 and then q2 from where q1 left off |
| Events.AlternateAt | painter/loop.go:43-44 | the receiver is given the first texture at even and the second at odd positions |
| Events.UntilStop | painter/loop.go:56-61 | the entries a stopping loop applies are a prefix of the queue |
| Events.UntilStopFirst | painter/loop.go:56-61 | that prefix contains no stop before its last entry, ends at the first stop when there is one, and is the whole queue when there is none |
| Events.StopAfterBatch | painter/loop.go:56-61 | after a batch without stops, StopAndWait's entry ends what is applied: later entries are not applied |
| Events.StopIgnored | painter/loop.go:39-48 | as written: with the queue [stop, white] a stopping loop applies only the stop, yet eventProcess still draws white |
| Events.Loop.constructor | painter/loop.go:16-26 | a Loop with its receiver set has an empty queue, no textures, stopReq unset and is not stopped |
| Events.Loop.Start | painter/loop.go:31-37 | Start creates two distinct 800x800 empty textures and empties the queue; it may change only the two texture fields and the queue, so stopReq and `stopped` are untouched |
| Events.Loop.Post | painter/loop.go:50-54 | a non-nil operation is pushed; nil is dropped |
| Events.Loop.StopAndWait | painter/loop.go:56-61 | the stop closure is pushed at the back of the queue |
| Events.Loop.Step | painter/loop.go:41-46 | one iteration: pull, apply to next, and when ready hand next to the receiver and swap; the new state is `Advance` of the old, and the result is whether the entry was ready |
| Events.Loop.EventProcess | painter/loop.go:39-48 | as written: the loop drains the whole queue. The textures are swapped once per ready entry and handed over alternately, the buffers and frames are those of `Process`, and every closure has run, stop or not |
| Events.Loop.EventProcessStopping | painter/loop.go:39-61 | corrected: the loop applies exactly the entries up to and including the first stop closure, leaves the rest queued, ends as `Outcome` of that prefix and is marked stopped iff the stop ran |
| LoopScenarios.PostAndStopOutcome | painter/loop_test.go:13-49 | the queue op 1, white, update, op 2, stop shows one white frame, records op 1 then op 2, and ends at the stop |
| LoopScenarios.PostAndStop | painter/loop_test.go:13-49 | the receiver is shown one frame holding a white fill, the closures recorded op 1 and op 2, and the loop stopped |
| LoopScenarios.UpdateSwitchOutcome | painter/loop_test.go:51-71 | white, update, stop shows one white frame and ends at the stop |
| LoopScenarios.UpdateSwitchTextures | painter/loop_test.go:51-71 | the texture last shown was filled white, and drawing goes on in the other texture |
| LoopScenarios.StopOutcome | painter/loop_test.go:73-79 | the stop closure alone draws nothing and shows nothing |
| LoopScenarios.StopWithoutOperations | painter/loop_test.go:73-79 | with no operations the receiver is given nothing and the loop stops |

## Left out

- Splitting the input into lines and words (`bufio.Scanner`, `strings.Fields`). A script is a sequence of lines, each a sequence of words. `Parse` never calls `scanner.Err()` (painter/lang/parser.go:31-38), so a read error or a line longer than 64 KiB ends the loop quietly and `Parse` returns finalize's list for the lines read so far with a nil error. A pre-split script cannot express that silent partial success.
- `strconv.ParseFloat`: a parameter of the parser, with the error text it reports taken as given.
- NaN and infinities: `strconv.ParseFloat` accepts "NaN", "Inf" and "Infinity". Go's `clamp(NaN, 0, 1)` returns NaN because both comparisons are false, so `figure NaN 0.5` followed by `move 0 0` leaves a figure outside [0, 1], and so does `figure Inf 0` followed by `move -Inf 0`. Reals have no such values, so the unit-square results of Lang.Clamp, Lang.MoveAll and Lang.StepSlots hold only for finite numbers.
- Floating point: coordinates are exact reals. Rounding in `v * float64(extent)` is not modelled, and nor is `int()` of a value outside the `int` range.
- Colours and draw modes: colours are the tags White, Green, Black and Yellow, and the draw mode (always `draw.Src`) is not recorded.
- Events.Receiver: the Go test receiver keeps only `lastTexture`. The model's receiver also logs every texture and a copy of its fills at hand-over, so that the tests' checks on what was shown can be stated.
- `screen.Texture`: modelled as the test mock only (bounds and a log of fills). Pixel contents, `Upload`, `Release` and `Size` are not modelled.
- `OperationFunc`: only the closures the repository builds (the stop request and the tests' recording closures); an arbitrary Go function cannot be expressed.
- Concurrency: the goroutine, the mutex and the `blocked` channel are left out. Steps run one at a time in the caller.
- Events.MessageQueue.Pull: the wait on an empty queue becomes the precondition that the queue is non-empty.
- Events.Loop.EventProcess: the Go loop never ends. The model runs it until the queue is empty, which is where the goroutine would block in `Pull`.
- Events.Loop.StopAndWait: does not wait. The wait on `stopped` is a receive on a channel that is never made. The model posts the stop closure, and the stopping loop then sets `stopped`.
- `ui/window.go` is not part of this model. It consumes the receiver's textures only.
- The figure's shape follows the code: the vertical bar lies along the left edge of the 300x300 box rather than through the centre.
- `Parse` does not re-initialise the parser, so a second `Parse` emits again what an earlier script left in the slots except the update flag. The model follows the code.
- A `figure` line stores its coordinates unclamped; only `move` clamps. The model follows the code.

## Findings

| source | as written | input that shows it | evidently intended | confidence | as-written member | corrected member |
|---|---|---|---|---|---|---|
| painter/loop.go:39-61 | `eventProcess` never reads `stopReq` and never leaves its loop. `stopped` is never made, so `StopAndWait`'s receive blocks forever. Operations posted after the stop closure are still applied | the queue [stop, white]: the stop closure runs and the white fill is still drawn; or any test that calls `StopAndWait` (painter/loop_test.go:31) | the loop applies everything posted up to and including the stop closure and nothing after it, then marks itself stopped so that `StopAndWait` returns | high; not executed | Events.StopIgnored | Events.Loop.EventProcessStopping |

# gospin spinner, modelled in Dafny

A model of gospin. gospin is a terminal spinner: a small state machine that draws one
frame of an animation at a time. It erases the previous frame by moving the cursor back,
hides the cursor while it runs and shows it again when done. Each step's bytes go
through a buffered sink (`Write`, then `Sync`). In porcelain mode it makes no output at
all.

Files:

- `bytes.dfy` (module `Bytes`): the `byte` type, and `Repeat`, which models Go's
  `bytes.Repeat`.
- `sink.dfy` (module `Sink`): the capturing sink used by the examples (`mock`) as the class
  `Mock`. It has a ghost log `trace` of the calls made on it. Beside it is a pure account
  (`Replay`, `Written`, `Syncs`) of what any sequence of calls leaves in `buffer` and
  `output`.
- `spinner.dfy` (module `Spinner`):
  - the control sequences `Back` (Cursor Left, CUB, section 8.3.18 of ECMA-48), `Hide` and
    `Show` (DEC private mode 25, DECTCEM);
  - the five preset frame tables, as the UTF-8 bytes of their glyphs;
  - the pure step functions (`AdvanceState`/`AdvanceCalls`, `DoneState`/`DoneCalls`,
    `Run`/`RunCalls`) and the lemmas about them;
  - the class `Spinner`, with the struct's fields. `Advance` and `Done` are proved to
    follow the pure step functions; the setters `Width`, `Porcelain` and `Writer` state
    the new value of every field;
  - the preset constructors.
- `examples.dfy` (module `Examples`): the two examples that fix exact output, written as
  methods whose contracts are the expected bytes.

Where spinner.go's doc comments and its code disagree, the model follows the code:

- spinner.go:19-21 says `Done` resets the spinner ready for reuse. The code at
  spinner.go:135-147 resets only `frame` and keeps `clear`. An `Advance` after `Done`
  therefore erases `width` columns and does not hide the cursor again, which
  spinner.go:15-16 promises for the first call (`AdvanceAfterDone`).
- spinner.go:23-25 says the default width is the number of characters in the first frame.
  The code at spinner.go:78 takes `len` of the string, its length in bytes, so the
  multi-byte dot glyphs would erase 3 columns without the override (`DotGlyphsAreThreeBytes`).

`New` with no frames uses the basic table (spinner.go:72-76).

## Model

| member | source | states |
|---|---|---|
| `Bytes.Repeat` | spinner.go:118 | the erase sequence built from `n` copies of a byte string has `n` times its length; the count is a `nat`, as `bytes.Repeat` panics on a negative one |
| `Bytes.RepeatAdd` | spinner.go:143 | repeating `a` then `b` times is repeating `a + b` times |
| `Sink.Replay` | spinner_test.go:64-78 | after any sequence of `Write`/`Sync` on a fresh mock, `output + buffer` is exactly the concatenation of all bytes written, in order; after a final `Sync` the buffer is empty and `output` is everything written |
| `Sink.OutputGrows` | spinner_test.go:74-78 | `output` only grows by appending: its value after a trace is a prefix of its value after any longer trace |
| `Sink.Flushed` | spinner_test.go:69-78 | calls ending in `Sync` append the pending bytes then everything they wrote to `output`, and leave `buffer` empty |
| `Sink.SyncTwice` | spinner_test.go:74-78 | a second `Sync` with no `Write` in between changes neither `buffer` nor `output` |
| `Sink.WrittenAppend` | spinner_test.go:69-72 | the bytes written by two traces one after the other are the bytes of the first followed by those of the second |
| `Sink.Mock.constructor` | spinner_test.go:64-67 | a fresh mock has empty `buffer` and `output` and no calls |
| `Sink.Mock.Write` | spinner_test.go:69-72 | appends `b` to `buffer`, leaves `output` unchanged, returns `len(b)` |
| `Sink.Mock.Sync` | spinner_test.go:74-78 | `output := output + buffer`, then `buffer` is empty |
| `Spinner.AdvanceState` | spinner.go:112-133 | porcelain: no field changes; otherwise `clear` becomes true and `frame` becomes `(frame + 1) % len(frames)`; the index invariant is kept |
| `Spinner.AdvanceCalls` | spinner.go:113-125 | porcelain: no sink call; otherwise the bytes written are the hide sequence (first time) or `width` copies of `Back`, then the current frame, and there is exactly one sync, last |
| `Spinner.DoneState` | spinner.go:135-141 | porcelain: no field changes; otherwise `frame` becomes 0 and `clear` keeps its value |
| `Spinner.DoneCalls` | spinner.go:136-146 | no sink call when porcelain or nothing drawn; otherwise `width` copies of `Back` then the show sequence, and exactly one sync, last |
| `Spinner.AdvanceMany` | spinner.go:127-131 | `k` advances that do not run past the end of the table move the index `k` places on, wrapping to 0 exactly at the end, and leave the cursor hidden once `k > 0` |
| `Spinner.AdvanceCycle` | spinner.go:127-131 | `len(frames)` consecutive advances bring the index back to its starting value |
| `Spinner.AdvancePeriodic` | spinner.go:127-131 | the index after `n + len(frames)` advances equals the index after `n` |
| `Spinner.AdvancePorcelainStays` | spinner.go:112-133 | advancing never switches porcelain mode on |
| `Spinner.PorcelainInert` | spinner.go:112-155 | in porcelain mode, no sequence of `Advance`, `Done`, `Width` and `Porcelain` calls makes any sink call or moves `frame` or `clear` |
| `Spinner.RunAppend` | spinner.go:112-155 | running two sequences of `Advance`, `Done`, `Width` and `Porcelain` calls one after the other gives the state and the sink calls of their concatenation |
| `Spinner.AdvanceAfterDone` | spinner.go:117-147 | since `Done` keeps `clear`, the next `Advance` writes `width` copies of `Back` and the first frame, not the hide sequence |
| `Spinner.Spinner.New` | spinner.go:69-81 | the given frames, or the basic table when none are given; `width` is the byte length of the first frame; `frame` is 0; `clear` is false; `porcelain` is the negation of the terminal probe; the writer is the default destination |
| `Spinner.Spinner.Advance` | spinner.go:112-133 | new fields are `AdvanceState` of the old ones; exactly the calls `AdvanceCalls` are made on the sink; outside porcelain mode the hide or erase bytes and the frame are appended to the output and nothing stays pending; in porcelain mode the sink is untouched |
| `Spinner.Spinner.Done` | spinner.go:135-147 | new fields are `DoneState` of the old ones; exactly the calls `DoneCalls` are made; if a frame was drawn outside porcelain mode, the erase then show bytes are appended to the output; otherwise the sink is untouched |
| `Spinner.Spinner.Width` | spinner.go:149-151 | sets `width` and changes nothing else |
| `Spinner.Spinner.Porcelain` | spinner.go:153-155 | sets `porcelain`; calling it again changes nothing; no other field changes |
| `Spinner.Spinner.Writer` | spinner.go:157-160 | replaces the sink and clears `porcelain`; no other field changes |
| `Spinner.Basic` | spinner.go:84-86 | exactly `New` on the basic table |
| `Spinner.Dot` | spinner.go:89-93 | `New` on the single-dot table, except that `width` is 1 |
| `Spinner.Dots` | spinner.go:96-100 | `New` on the multi-dot table, except that `width` is 1 |
| `Spinner.Ellipses` | spinner.go:103-105 | exactly `New` on the ellipsis table |
| `Spinner.Scrolling` | spinner.go:108-110 | exactly `New` on the scrolling table |
| `Spinner.DotGlyphsAreThreeBytes` | spinner.go:58-59 | every single-dot and multi-dot frame is 3 bytes, so without the override `New` would erase 3 columns |
| `Examples.ExampleSpinnerWriter` | spinner_test.go:34-53 | a basic spinner given a custom sink, advanced five times and then finished, leaves exactly `[27 91 63 50 53 108 124 27 91 68 47 27 91 68 45 27 91 68 92 27 91 68 124 27 91 68 27 91 63 50 53 104]` in the sink's output |
| `Examples.ExpectedWriterBytes` | spinner_test.go:51-52 | hide, "\|", then `Back` before each of "/", "-", "\\", "\|", then `Back` and show, is that byte list |
| `Examples.ExampleSpinnerPorcelain` | spinner_test.go:55-62 | a spinner put in porcelain mode, then advanced and finished, leaves its sink with nothing synced and nothing pending, whatever the terminal probe said |

## Left out

- Terminal detection (`terminal.IsTerminal` on stdout) is a foreign OS call. It is the
  `isTerminal` parameter of the constructors.
- `os.Stdout` as the default writer is process I/O. The default destination is a `Mock`
  passed to the constructors as `stdout`.
- The `Writer` interface of writer.go is not part of this model as an interface. The
  spinner's `writer` field has the type `Mock`, the one sink implementation in spinner_test.go
  that has observable behaviour. How a real terminal renders the bytes is not modelled.
- `Writer` calls inside a call sequence: `Op`, `Run` and `RunCalls` cover `Advance`, `Done`,
  `Width` and `Porcelain` on one sink. `Writer` is specified only as a method of the class.
- `Spinner.Spinner.New` copies the frame list as a value. Go's `New(xs...)` keeps the
  caller's slice (spinner.go:73), so a later change to its elements changes the frames
  drawn. The model does not capture that aliasing.
- Errors from `Write` and `Sync` are not modelled. The spinner ignores them, and the mock
  never fails. `Mock.Write` returns only the byte count.
- `Spinner.Spinner.Width`: takes a `nat`. Go's `Width` accepts any `int`, and a negative
  width makes the next erase panic inside `bytes.Repeat`. That panic is not modelled.
- `Bytes.Repeat`: the panic of `bytes.Repeat` when `len * count` overflows is not modelled.
  Integers here are unbounded.
- `Spinner.AdvanceMany`: states the index only for runs that stay within one pass through
  the table. Longer runs follow from `Spinner.AdvanceCycle` and `Spinner.AdvancePeriodic`.
- `ExampleNew` (spinner_test.go:9-32) only constructs spinners and has no output. Every
  constructor it calls is modelled above.
- The `fmt.Println` printing in the examples is I/O. The examples return the captured
  bytes instead.

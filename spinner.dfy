/** The spinner of spinner.go: a small state machine that draws one frame at
    a time through a sink, erasing the previous frame by moving the cursor
    back, and that does nothing at all in porcelain mode.

    The pure part (`State`, `AdvanceState`/`AdvanceCalls`, `DoneState`/
    `DoneCalls`, `Run`) says what one step does to the fields and which calls
    it makes on the sink; the class `Spinner` holds the fields and is proved
    to follow it. */
module Spinner {
  import opened Bytes
  import opened Sink

  /** Cursor Left (CUB, section 8.3.18 of ECMA-48) without a parameter: one
      column back. `ESC [ D`. */
  const Back: seq<byte> := [27, 91, 68]

  /** DEC private mode 25 (DECTCEM) reset, hiding the cursor. `ESC [ ? 2 5 l`. */
  const Hide: seq<byte> := [27, 91, 63, 50, 53, 108]

  /** DEC private mode 25 (DECTCEM) set, showing the cursor. `ESC [ ? 2 5 h`. */
  const Show: seq<byte> := [27, 91, 63, 50, 53, 104]

  // The preset frame tables, each frame as the UTF-8 bytes of spinner.go's
  // string literals.

  /** "|", "/", "-", "\" */
  const BasicFrames: seq<seq<byte>> := [[124], [47], [45], [92]]

  /** U+2808, U+2810, U+2820, U+2880, U+2840, U+2804, U+2802, U+2801 */
  const DotFrames: seq<seq<byte>> :=
    [[226, 160, 136], [226, 160, 144], [226, 160, 160], [226, 162, 128],
     [226, 161, 128], [226, 160, 132], [226, 160, 130], [226, 160, 129]]

  /** U+280B, U+2819, U+2839, U+2838, U+283C, U+2834, U+2826, U+2827, U+2807, U+280F */
  const DotsFrames: seq<seq<byte>> :=
    [[226, 160, 139], [226, 160, 153], [226, 160, 185], [226, 160, 184],
     [226, 160, 188], [226, 160, 180], [226, 160, 166], [226, 160, 167],
     [226, 160, 135], [226, 160, 143]]

  /** ".  ", ".. ", "...", "   " */
  const EllipsesFrames: seq<seq<byte>> :=
    [[46, 32, 32], [46, 46, 32], [46, 46, 46], [32, 32, 32]]

  /** ".  ", ".. ", "...", " ..", "  .", "   " */
  const ScrollingFrames: seq<seq<byte>> :=
    [[46, 32, 32], [46, 46, 32], [46, 46, 46], [32, 46, 46], [32, 32, 46], [32, 32, 32]]

  /** The fields of a spinner other than its sink. `clear` means the cursor
      has been hidden and a frame drawn; `width` is how many `Back`s erase. */
  datatype State = State(porcelain: bool, clear: bool, width: nat, frame: nat, frames: seq<seq<byte>>)

  /** The frame index always points into a non-empty frame list. */
  predicate Inv(s: State)
  {
    |s.frames| > 0 && s.frame < |s.frames|
  }

  /** The bytes that erase the frame drawn last. */
  function Erase(s: State): seq<byte>
  {
    Repeat(Back, s.width)
  }

  /** The fields after `Advance`. Porcelain mode changes nothing; otherwise
      the cursor is known hidden and the index moves on cyclically. */
  function AdvanceState(s: State): (r: State)
    requires Inv(s)
    ensures Inv(r)
    ensures r.porcelain == s.porcelain && r.width == s.width && r.frames == s.frames
    ensures s.porcelain ==> r == s
    ensures !s.porcelain ==> r.clear && r.frame == (s.frame + 1) % |s.frames|
  {
    if s.porcelain then s
    else
      var next := s.frame + 1;
      s.(clear := true, frame := if next == |s.frames| then 0 else next)
  }

  /** The calls `Advance` makes on the sink: none in porcelain mode;
      otherwise the hide sequence the first time and the erase sequence
      afterwards, then the current frame, then exactly one sync, last. */
  function AdvanceCalls(s: State): (r: seq<Call>)
    requires Inv(s)
    ensures s.porcelain <==> r == []
    ensures !s.porcelain ==> Syncs(r) == 1 && r[|r| - 1] == Sync
    ensures !s.porcelain ==> Written(r) == (if s.clear then Erase(s) else Hide) + s.frames[s.frame]
  {
    if s.porcelain then []
    else
      var first := if s.clear then Erase(s) else Hide;
      WriteWriteSync(first, s.frames[s.frame]);
      [Write(first), Write(s.frames[s.frame]), Sync]
  }

  /** The fields after `Done`. Outside porcelain mode the index goes back to
      the first frame; `clear` is kept as it was. */
  function DoneState(s: State): (r: State)
    requires Inv(s)
    ensures Inv(r)
    ensures r.porcelain == s.porcelain && r.clear == s.clear && r.width == s.width && r.frames == s.frames
    ensures r.frame == if s.porcelain then s.frame else 0
  {
    if s.porcelain then s else s.(frame := 0)
  }

  /** The calls `Done` makes on the sink: nothing unless a frame has been
      drawn outside porcelain mode; then the erase sequence and the show
      sequence, and exactly one sync, last. */
  function DoneCalls(s: State): (r: seq<Call>)
    ensures r == [] <==> s.porcelain || !s.clear
    ensures r != [] ==> Syncs(r) == 1 && r[|r| - 1] == Sync && Written(r) == Erase(s) + Show
  {
    if s.porcelain || !s.clear then []
    else
      WriteWriteSync(Erase(s), Show);
      [Write(Erase(s)), Write(Show), Sync]
  }

  /** The calls a caller can make on a spinner bound to one sink: every
      method but `Writer`, which changes the sink itself. */
  datatype Op = AdvanceOp | DoneOp | WidthOp(w: nat) | PorcelainOp

  /** The fields after one call. */
  function Step(s: State, op: Op): (r: State)
    requires Inv(s)
    ensures Inv(r) && r.frames == s.frames
  {
    match op
    case AdvanceOp => AdvanceState(s)
    case DoneOp => DoneState(s)
    case WidthOp(w) => s.(width := w)
    case PorcelainOp => s.(porcelain := true)
  }

  /** The sink calls one call makes. */
  function StepCalls(s: State, op: Op): seq<Call>
    requires Inv(s)
  {
    match op
    case AdvanceOp => AdvanceCalls(s)
    case DoneOp => DoneCalls(s)
    case WidthOp(_) => []
    case PorcelainOp => []
  }

  /** The fields after a sequence of calls. */
  function Run(s: State, ops: seq<Op>): (r: State)
    requires Inv(s)
    ensures Inv(r) && r.frames == s.frames
    decreases ops
  {
    if ops == [] then s else Run(Step(s, ops[0]), ops[1..])
  }

  /** The sink calls a sequence of calls makes, in order. */
  function RunCalls(s: State, ops: seq<Op>): seq<Call>
    requires Inv(s)
    decreases ops
  {
    if ops == [] then [] else StepCalls(s, ops[0]) + RunCalls(Step(s, ops[0]), ops[1..])
  }

  /** `k` consecutive advances that do not run past the end of the table
      move the index `k` places on, wrapping to 0 exactly at the end; the
      cursor is hidden once `k > 0` and nothing else changes. */
  lemma {:induction false} AdvanceMany(s: State, k: nat)
    requires Inv(s) && !s.porcelain && s.frame + k <= |s.frames|
    ensures Run(s, Repeat([AdvanceOp], k)).frame == if s.frame + k == |s.frames| then 0 else s.frame + k
    ensures Run(s, Repeat([AdvanceOp], k)).clear == (s.clear || k > 0)
    ensures Run(s, Repeat([AdvanceOp], k)).width == s.width
    ensures !Run(s, Repeat([AdvanceOp], k)).porcelain
    decreases k
  {
    var ops := Repeat([AdvanceOp], k);
    if k > 0 {
      assert ops[0] == AdvanceOp && ops[1..] == Repeat([AdvanceOp], k - 1);
      var s' := AdvanceState(s);
      if s.frame + 1 == |s.frames| {
        assert k == 1 && ops[1..] == [];
      } else {
        assert s'.frame == s.frame + 1;
        AdvanceMany(s', k - 1);
      }
    }
  }

  /** As many advances as there are frames bring the index back to where it
      started: the table's length is the animation's period. */
  lemma AdvanceCycle(s: State)
    requires Inv(s) && !s.porcelain
    ensures Run(s, Repeat([AdvanceOp], |s.frames|)).frame == s.frame
    ensures Run(s, Repeat([AdvanceOp], |s.frames|)).clear
  {
    var len, f := |s.frames|, s.frame;
    RepeatAdd([AdvanceOp], len - f, f);
    RunAppend(s, Repeat([AdvanceOp], len - f), Repeat([AdvanceOp], f));
    AdvanceMany(s, len - f);
    var mid := Run(s, Repeat([AdvanceOp], len - f));
    AdvanceMany(mid, f);
  }

  /** After `n + |frames|` advances the index is where it was after `n`. */
  lemma AdvancePeriodic(s: State, n: nat)
    requires Inv(s) && !s.porcelain
    ensures Run(s, Repeat([AdvanceOp], n + |s.frames|)).frame == Run(s, Repeat([AdvanceOp], n)).frame
  {
    RepeatAdd([AdvanceOp], n, |s.frames|);
    RunAppend(s, Repeat([AdvanceOp], n), Repeat([AdvanceOp], |s.frames|));
    AdvancePorcelainStays(s, n);
    AdvanceCycle(Run(s, Repeat([AdvanceOp], n)));
  }

  /** Advancing never switches porcelain mode on. */
  lemma {:induction false} AdvancePorcelainStays(s: State, n: nat)
    requires Inv(s) && !s.porcelain
    ensures !Run(s, Repeat([AdvanceOp], n)).porcelain
    decreases n
  {
    var ops := Repeat([AdvanceOp], n);
    if n > 0 {
      assert ops[0] == AdvanceOp && ops[1..] == Repeat([AdvanceOp], n - 1);
      AdvancePorcelainStays(AdvanceState(s), n - 1);
    }
  }

  /** In porcelain mode no sequence of `Advance`, `Done`, `Width` and
      `Porcelain` calls makes a sink call, and neither the index nor the
      cursor flag ever moves. */
  lemma {:induction false} PorcelainInert(s: State, ops: seq<Op>)
    requires Inv(s) && s.porcelain
    ensures RunCalls(s, ops) == []
    ensures Run(s, ops).porcelain && Run(s, ops).frame == s.frame && Run(s, ops).clear == s.clear
    decreases ops
  {
    if ops != [] {
      PorcelainInert(Step(s, ops[0]), ops[1..]);
    }
  }

  /** The sink calls of a concatenation of call sequences, and the state it
      ends in, are those of the two parts one after the other. */
  lemma {:induction false} RunAppend(s: State, a: seq<Op>, b: seq<Op>)
    requires Inv(s)
    ensures Run(s, a + b) == Run(Run(s, a), b)
    ensures RunCalls(s, a + b) == RunCalls(s, a) + RunCalls(Run(s, a), b)
    decreases a
  {
    if a == [] {
      assert a + b == b;
    } else {
      assert (a + b)[0] == a[0] && (a + b)[1..] == a[1..] + b;
      RunAppend(Step(s, a[0]), a[1..], b);
    }
  }

  /** `Done` keeps the cursor flag, so an `Advance` after `Done` erases
      before drawing the first frame and does not hide the cursor again. */
  lemma AdvanceAfterDone(s: State)
    requires Inv(s) && !s.porcelain && s.clear
    ensures Written(AdvanceCalls(DoneState(s))) == Erase(s) + s.frames[0]
  {
  }

  /** The spinner struct: the fields of `State` plus the sink it writes to. */
  class Spinner {
    var porcelain: bool
    var clear: bool
    var width: nat
    var frame: nat
    var frames: seq<seq<byte>>
    var writer: Mock

    /** The fields other than the sink, as a value. */
    function Model(): State
      reads this
    {
      State(porcelain, clear, width, frame, frames)
    }

    ghost predicate Valid()
      reads this, writer
    {
      Inv(Model()) && writer.Valid()
    }

    /** `New(frames...)`: the given frames, or the basic ones when none are
        given; the byte length of the first frame as the erase width; the
        first frame next; nothing drawn; porcelain exactly when the
        terminal probe says the default destination is not a terminal. */
    constructor New(fs: seq<seq<byte>>, isTerminal: bool, stdout: Mock)
      requires stdout.Valid()
      ensures Valid() && writer == stdout
      ensures frames == (if |fs| > 0 then fs else BasicFrames)
      ensures width == |frames[0]| && frame == 0 && !clear && porcelain == !isTerminal
    {
      writer := stdout;
      var chosen := if |fs| > 0 then fs else BasicFrames;
      frames := chosen;
      width := |chosen[0]|;
      frame := 0;
      clear := false;
      porcelain := !isTerminal;
    }

    /** Draws the next frame over the previous one, as `AdvanceState` and
        `AdvanceCalls` say: in porcelain mode nothing at all, otherwise the
        hide or erase bytes and the frame land at the end of the sink's
        output and nothing stays pending. */
    method Advance()
      requires Valid()
      modifies this, writer
      ensures Valid() && writer == old(writer)
      ensures Model() == AdvanceState(old(Model()))
      ensures writer.trace == old(writer.trace) + AdvanceCalls(old(Model()))
      ensures old(porcelain) ==> unchanged(writer)
      ensures !old(porcelain) ==>
                writer.buffer == [] &&
                writer.output == old(writer.output) + old(writer.buffer) + (if old(clear) then Repeat(Back, old(width)) else Hide) + old(frames[frame])
    {
      if porcelain {
        return;
      }
      ghost var before := writer.trace;
      ghost var s := Model();
      ghost var first := if clear then Erase(s) else Hide;
      var n;
      if clear {
        n := writer.Write(Repeat(Back, width));
      } else {
        n := writer.Write(Hide);
        clear := true;
      }
      n := writer.Write(frames[frame]);
      writer.Sync();
      frame := frame + 1;
      if frame == |frames| {
        frame := 0;
      }
      assert Model() == AdvanceState(s);
      assert AdvanceCalls(s) == [Call.Write(first), Call.Write(s.frames[s.frame]), Call.Sync];
      AppendThree(before, Call.Write(first), Call.Write(s.frames[s.frame]), Call.Sync);
      Flushed(before, AdvanceCalls(s));
    }

    /** Removes the spinner and restores the cursor, as `DoneState` and
        `DoneCalls` say: outside porcelain mode the index goes back to the
        first frame, and if a frame was drawn the erase and show bytes land
        at the end of the output. */
    method Done()
      requires Valid()
      modifies this, writer
      ensures Valid() && writer == old(writer)
      ensures Model() == DoneState(old(Model()))
      ensures writer.trace == old(writer.trace) + DoneCalls(old(Model()))
      ensures old(porcelain) || !old(clear) ==> unchanged(writer)
      ensures !old(porcelain) && old(clear) ==>
                writer.buffer == [] &&
                writer.output == old(writer.output) + old(writer.buffer) + Repeat(Back, old(width)) + Show
    {
      if porcelain {
        return;
      }
      ghost var before := writer.trace;
      ghost var s := Model();
      frame := 0;
      if clear {
        var n := writer.Write(Repeat(Back, width));
        n := writer.Write(Show);
        writer.Sync();
        assert DoneCalls(s) == [Call.Write(Erase(s)), Call.Write(Show), Call.Sync];
        AppendThree(before, Call.Write(Erase(s)), Call.Write(Show), Call.Sync);
        Flushed(before, DoneCalls(s));
      } else {
        assert DoneCalls(s) == [];
        assert writer.trace == before + DoneCalls(s);
      }
      assert Model() == DoneState(s);
    }

    /** Sets the erase width and nothing else. */
    method Width(w: nat)
      requires Valid()
      modifies this
      ensures Valid() && width == w
      ensures porcelain == old(porcelain) && clear == old(clear) && frame == old(frame)
      ensures frames == old(frames) && writer == old(writer)
    {
      width := w;
    }

    /** Switches output off; calling it again changes nothing more. */
    method Porcelain()
      requires Valid()
      modifies this
      ensures Valid() && porcelain
      ensures old(porcelain) ==> unchanged(this)
      ensures clear == old(clear) && width == old(width) && frame == old(frame)
      ensures frames == old(frames) && writer == old(writer)
    {
      porcelain := true;
    }

    /** Replaces the sink and switches output back on. */
    method Writer(w: Mock)
      requires Valid() && w.Valid()
      modifies this
      ensures Valid() && writer == w && !porcelain
      ensures clear == old(clear) && width == old(width) && frame == old(frame) && frames == old(frames)
    {
      porcelain := false;
      writer := w;
    }
  }

  /** `Basic()`: exactly `New` on the basic table. */
  method Basic(isTerminal: bool, stdout: Mock) returns (s: Spinner)
    requires stdout.Valid()
    ensures fresh(s) && s.Valid() && s.writer == stdout
    ensures s.Model() == State(!isTerminal, false, |BasicFrames[0]|, 0, BasicFrames)
  {
    s := new Spinner.New(BasicFrames, isTerminal, stdout);
  }

  /** `Dot()`: `New` on the single-dot table, with the width forced to 1. */
  method Dot(isTerminal: bool, stdout: Mock) returns (s: Spinner)
    requires stdout.Valid()
    ensures fresh(s) && s.Valid() && s.writer == stdout
    ensures s.Model() == State(!isTerminal, false, 1, 0, DotFrames)
  {
    s := new Spinner.New(DotFrames, isTerminal, stdout);
    s.Width(1);
  }

  /** `Dots()`: `New` on the multi-dot table, with the width forced to 1. */
  method Dots(isTerminal: bool, stdout: Mock) returns (s: Spinner)
    requires stdout.Valid()
    ensures fresh(s) && s.Valid() && s.writer == stdout
    ensures s.Model() == State(!isTerminal, false, 1, 0, DotsFrames)
  {
    s := new Spinner.New(DotsFrames, isTerminal, stdout);
    s.Width(1);
  }

  /** `Ellipses()`: exactly `New` on the ellipsis table. */
  method Ellipses(isTerminal: bool, stdout: Mock) returns (s: Spinner)
    requires stdout.Valid()
    ensures fresh(s) && s.Valid() && s.writer == stdout
    ensures s.Model() == State(!isTerminal, false, |EllipsesFrames[0]|, 0, EllipsesFrames)
  {
    s := new Spinner.New(EllipsesFrames, isTerminal, stdout);
  }

  /** `Scrolling()`: exactly `New` on the scrolling table. */
  method Scrolling(isTerminal: bool, stdout: Mock) returns (s: Spinner)
    requires stdout.Valid()
    ensures fresh(s) && s.Valid() && s.writer == stdout
    ensures s.Model() == State(!isTerminal, false, |ScrollingFrames[0]|, 0, ScrollingFrames)
  {
    s := new Spinner.New(ScrollingFrames, isTerminal, stdout);
  }

  /** Every single-dot and multi-dot glyph is three bytes long, so `New`
      alone would erase three columns for them where the terminal shows one. */
  lemma DotGlyphsAreThreeBytes()
    ensures forall i :: 0 <= i < |DotFrames| ==> |DotFrames[i]| == 3
    ensures forall i :: 0 <= i < |DotsFrames| ==> |DotsFrames[i]| == 3
  {
  }
}

/** The two end-to-end examples of spinner_test.go, as methods that return
    what the sink captured, with the exact bytes as their contracts. */
module Examples {
  import opened Bytes
  import opened Sink
  import opened Spinner

  /** `ExampleSpinner_Writer`: a basic spinner redirected to a fresh mock,
      advanced five times and then finished. The mock's output is the hide
      sequence and "|", then "/", "-", "\" and "|" each after one `Back`,
      then one `Back` and the show sequence. */
  method ExampleSpinnerWriter(isTerminal: bool) returns (out: seq<byte>)
    ensures out == [27, 91, 63, 50, 53, 108, 124, 27, 91, 68, 47, 27, 91, 68, 45,
                    27, 91, 68, 92, 27, 91, 68, 124, 27, 91, 68, 27, 91, 63, 50, 53, 104]
    ensures out == Hide + [124] + Back + [47] + Back + [45] + Back + [92] + Back + [124] + Back + Show
  {
    var stdout := new Mock();
    var s := new Spinner.New([], isTerminal, stdout);
    var w := new Mock();
    s.Writer(w);
    assert s.Model() == State(false, false, 1, 0, BasicFrames);
    assert Repeat(Back, 1) == Back by { assert Repeat(Back, 0) == []; }
    s.Advance();
    ghost var o1 := w.output;
    assert o1 == Hide + BasicFrames[0];
    assert s.frame == 1 && s.clear;
    s.Advance();
    ghost var o2 := w.output;
    assert o2 == o1 + Back + BasicFrames[1];
    assert s.frame == 2 && s.clear;
    s.Advance();
    ghost var o3 := w.output;
    assert o3 == o2 + Back + BasicFrames[2];
    assert s.frame == 3 && s.clear;
    s.Advance();
    ghost var o4 := w.output;
    assert o4 == o3 + Back + BasicFrames[3];
    assert s.frame == 0 && s.clear;
    s.Advance();
    ghost var o5 := w.output;
    assert o5 == o4 + Back + BasicFrames[0];
    assert s.frame == 1 && s.clear;
    s.Done();
    out := w.output;
    assert out == o5 + Back + Show;
    ExpectedWriterBytes(o1, o2, o3, o4, o5, out);
  }

  /** The expected output of `ExampleSpinner_Writer`, spelled out from the
      control sequences and frames. */
  lemma ExpectedWriterBytes(o1: seq<byte>, o2: seq<byte>, o3: seq<byte>, o4: seq<byte>, o5: seq<byte>, o6: seq<byte>)
    requires o1 == Hide + [124] && o2 == o1 + Back + [47] && o3 == o2 + Back + [45]
    requires o4 == o3 + Back + [92] && o5 == o4 + Back + [124] && o6 == o5 + Back + Show
    ensures o6 == [27, 91, 63, 50, 53, 108, 124, 27, 91, 68, 47, 27, 91, 68, 45,
                   27, 91, 68, 92, 27, 91, 68, 124, 27, 91, 68, 27, 91, 63, 50, 53, 104]
    ensures o6 == Hide + [124] + Back + [47] + Back + [45] + Back + [92] + Back + [124] + Back + Show
  {
  }

  /** `ExampleSpinner_Porcelain`: a spinner put in porcelain mode makes no
      output, synced or pending, when advanced and finished, whatever the
      terminal probe said. */
  method ExampleSpinnerPorcelain(isTerminal: bool) returns (out: seq<byte>)
    ensures out == []
  {
    var stdout := new Mock();
    var s := new Spinner.New([], isTerminal, stdout);
    s.Porcelain();
    s.Advance();
    s.Done();
    out := stdout.output + stdout.buffer;
  }
}

/** The capturing sink of the examples (the `mock` type of spinner_test.go):
    `Write` queues bytes in `buffer`, `Sync` moves the queue onto the end of
    `output`. Beside the class, a pure account of what any sequence of calls
    leaves behind, against which the class is checked. */
module Sink {
  import opened Bytes

  /** One call a spinner makes on its sink. */
  datatype Call = Write(data: seq<byte>) | Sync

  /** What a mock holds: bytes written but not yet synced, and bytes synced. */
  datatype Contents = Contents(buffer: seq<byte>, output: seq<byte>)

  /** All bytes passed to `Write`, in call order. */
  function Written(trace: seq<Call>): seq<byte>
  {
    if trace == [] then []
    else Written(trace[..|trace| - 1]) + (match trace[|trace| - 1]
                                          case Write(b) => b
                                          case Sync => [])
  }

  /** How many `Sync` calls the trace holds. */
  function Syncs(trace: seq<Call>): nat
  {
    if trace == [] then 0
    else Syncs(trace[..|trace| - 1]) + (if trace[|trace| - 1] == Sync then 1 else 0)
  }

  /** The effect of one call on the mock's two byte strings. */
  function Apply(c: Contents, call: Call): (r: Contents)
    ensures call.Write? ==> r.output == c.output && r.buffer == c.buffer + call.data
    ensures call.Sync? ==> r.output == c.output + c.buffer && r.buffer == []
  {
    match call
    case Write(b) => c.(buffer := c.buffer + b)
    case Sync => Contents([], c.output + c.buffer)
  }

  /** What a fresh mock (`&mock{}`) holds after the calls of `trace`. Nothing
      written is lost or reordered: synced and pending bytes together are
      everything written; a trace that ends in a sync has nothing pending. */
  function Replay(trace: seq<Call>): (r: Contents)
    ensures r.output + r.buffer == Written(trace)
    ensures trace != [] && trace[|trace| - 1] == Sync ==> r.buffer == [] && r.output == Written(trace)
  {
    if trace == [] then Contents([], [])
    else Apply(Replay(trace[..|trace| - 1]), trace[|trace| - 1])
  }

  /** Two writes and a sync, the shape of every spinner step that draws:
      their bytes in order, one sync. */
  lemma WriteWriteSync(a: seq<byte>, b: seq<byte>)
    ensures Written([Write(a), Write(b), Sync]) == a + b
    ensures Syncs([Write(a), Write(b), Sync]) == 1
  {
    var t := [Write(a), Write(b), Sync];
    assert t[..2] == [Write(a), Write(b)] && t[..2][..1] == [Write(a)] && t[..2][..1][..0] == [];
    assert Written(t[..1]) == a;
    assert Written(t[..2]) == a + b;
    assert Syncs(t[..1]) == 0;
    assert Syncs(t[..2]) == 0;
  }

  /** Sequence bookkeeping for the spinner's proofs, not a property of the
      mock: three calls made one at a time extend a trace by all three.
      Stating it separately keeps those proofs cheap and stable. */
  lemma AppendThree(t: seq<Call>, a: Call, b: Call, c: Call)
    ensures t + [a] + [b] + [c] == t + [a, b, c]
  {
  }

  /** Unfolding step for the class's proofs, not a result of its own:
      replaying one more call applies that call to what was there. */
  lemma ReplaySnoc(trace: seq<Call>, call: Call)
    ensures Replay(trace + [call]) == Apply(Replay(trace), call)
  {
  }

  /** Written bytes of a concatenation are the concatenation of written bytes. */
  lemma {:induction false} WrittenAppend(t: seq<Call>, u: seq<Call>)
    ensures Written(t + u) == Written(t) + Written(u)
  {
    if u != [] {
      var u' := u[..|u| - 1];
      assert (t + u)[..|t + u| - 1] == t + u';
      assert (t + u)[|t + u| - 1] == u[|u| - 1];
      WrittenAppend(t, u');
    } else {
      assert t + u == t;
    }
  }

  /** `output` only ever grows at its end: whatever follows a trace, the
      output it produced stays a prefix of the later output. */
  lemma {:induction false} OutputGrows(t: seq<Call>, u: seq<Call>)
    ensures Replay(t).output <= Replay(t + u).output
  {
    if u != [] {
      var u' := u[..|u| - 1];
      assert (t + u)[..|t + u| - 1] == t + u';
      assert (t + u)[|t + u| - 1] == u[|u| - 1];
      OutputGrows(t, u');
    } else {
      assert t + u == t;
    }
  }

  /** Calls that end in a sync move everything pending and everything they
      wrote onto the end of the output, and leave nothing pending. */
  lemma Flushed(t: seq<Call>, u: seq<Call>)
    requires u != [] && u[|u| - 1] == Sync
    ensures Replay(t + u).buffer == []
    ensures Replay(t + u).output == Replay(t).output + Replay(t).buffer + Written(u)
  {
    assert (t + u)[|t + u| - 1] == Sync;
    WrittenAppend(t, u);
  }

  /** A second sync with no write in between changes nothing. */
  lemma SyncTwice(t: seq<Call>)
    ensures Replay(t + [Sync, Sync]) == Replay(t + [Sync])
  {
    ReplaySnoc(t, Sync);
    ReplaySnoc(t + [Sync], Sync);
    assert t + [Sync] + [Sync] == t + [Sync, Sync];
  }

  /** The mock sink. `trace` records, for the proofs only, every call made on
      it since it was created. */
  class Mock {
    var buffer: seq<byte>
    var output: seq<byte>
    ghost var trace: seq<Call>

    ghost predicate Valid()
      reads this
    {
      Contents(buffer, output) == Replay(trace)
    }

    /** `&mock{}`: both byte strings empty, no calls yet. */
    constructor ()
      ensures Valid() && trace == [] && buffer == [] && output == []
    {
      buffer := [];
      output := [];
      trace := [];
    }

    /** Appends `b` to `buffer`, leaves `output` alone and reports every byte
        as accepted. */
    method Write(b: seq<byte>) returns (n: nat)
      requires Valid()
      modifies this
      ensures Valid() && trace == old(trace) + [Call.Write(b)]
      ensures buffer == old(buffer) + b && output == old(output)
      ensures n == |b|
    {
      ReplaySnoc(trace, Call.Write(b));
      buffer := buffer + b;
      trace := trace + [Call.Write(b)];
      n := |b|;
    }

    /** Moves `buffer` onto the end of `output` and empties `buffer`. */
    method Sync()
      requires Valid()
      modifies this
      ensures Valid() && trace == old(trace) + [Call.Sync]
      ensures output == old(output) + old(buffer) && buffer == []
    {
      ReplaySnoc(trace, Call.Sync);
      output := output + buffer;
      buffer := [];
      trace := trace + [Call.Sync];
    }
  }
}

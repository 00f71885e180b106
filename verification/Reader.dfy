/** The capped reader of a check's output: a growing buffer that keeps a prefix and drains the rest. */
module Reader {

  type byte = bv8

  /** One turn of the read loop: the child's output, a quiet wait, or the deadline. An empty chunk is the end. */
  datatype Turn = Chunk(bytes: seq<byte>) | Quiet | Expired

  predicate Stops(turn: Turn) {
    turn.Expired? || (turn.Chunk? && turn.bytes == [])
  }

  /** Everything read before the loop stops, however it was cut into chunks. */
  function Output(turns: seq<Turn>, from: nat): seq<byte>
    decreases |turns| - from
  {
    if from >= |turns| || Stops(turns[from]) then []
    else if turns[from].Chunk? then turns[from].bytes + Output(turns, from + 1)
    else Output(turns, from + 1)
  }

  predicate TimesOut(turns: seq<Turn>, from: nat)
    decreases |turns| - from
  {
    from < |turns| && (turns[from].Expired? || (!Stops(turns[from]) && TimesOut(turns, from + 1)))
  }

  function Room(cap: int): nat {
    if cap < 0 then 0 else cap
  }

  /** The first `cap` bytes, or all of them when there are fewer. */
  function Capped(output: seq<byte>, cap: int): (retained: seq<byte>)
    ensures retained <= output
    ensures |retained| == if |output| <= cap then |output| else if cap > 0 then cap else 0
  {
    if |output| <= Room(cap) then output else output[..Room(cap)]
  }

  /** The buffer and the overflow flag after one more chunk. */
  method Absorb(retained: seq<byte>, truncated: bool, bytes: seq<byte>, cap: int, ghost sofar: seq<byte>)
    returns (retained': seq<byte>, truncated': bool)
    requires retained == Capped(sofar, cap) && (truncated <==> |sofar| > Room(cap)) && |bytes| > 0
    ensures retained' == Capped(sofar + bytes, cap)
    ensures truncated' <==> |sofar + bytes| > Room(cap)
  {
    retained', truncated' := retained, truncated;
    var room := cap - |retained|;
    if room > 0 {
      retained' := retained + if room < |bytes| then bytes[..room] else bytes;
    }
    if |bytes| > Room(room) {
      truncated' := true;
    }
  }

  /** What was read before turn `i`. */
  ghost predicate Follows(turns: seq<Turn>, i: nat, sofar: seq<byte>) {
    Output(turns, 0) == sofar + Output(turns, i)
  }

  lemma OutputSplits(turns: seq<Turn>, i: nat, sofar: seq<byte>)
    requires i < |turns| && !Stops(turns[i]) && turns[i].Chunk? && Follows(turns, i, sofar)
    ensures Follows(turns, i + 1, sofar + turns[i].bytes)
  {
    assert sofar + (turns[i].bytes + Output(turns, i + 1)) == (sofar + turns[i].bytes) + Output(turns, i + 1);
  }

  lemma FollowsToTheEnd(turns: seq<Turn>, i: nat, sofar: seq<byte>)
    requires Follows(turns, i, sofar) && (i < |turns| ==> Stops(turns[i]))
    ensures Output(turns, 0) == sofar
  {
    assert sofar + [] == sofar;
  }

  /** The read loop over one child's turns: it retains the first `cap` bytes and says whether there were more. */
  method ReadBounded(turns: seq<Turn>, cap: int) returns (retained: seq<byte>, truncated: bool, timedOut: bool)
    ensures retained == Capped(Output(turns, 0), cap) <= Output(turns, 0)
    ensures |retained| == if |Output(turns, 0)| <= cap then |Output(turns, 0)| else if cap > 0 then cap else 0
    ensures truncated <==> |retained| < |Output(turns, 0)|
    ensures timedOut <==> TimesOut(turns, 0)
  {
    retained, truncated, timedOut := [], false, false;
    ghost var sofar: seq<byte> := [];
    var i := 0;
    while i < |turns| && !Stops(turns[i])
      invariant 0 <= i <= |turns|
      invariant Follows(turns, i, sofar)
      invariant TimesOut(turns, 0) == TimesOut(turns, i)
      invariant retained == Capped(sofar, cap)
      invariant truncated <==> |sofar| > Room(cap)
    {
      if turns[i].Chunk? {
        retained, truncated := Absorb(retained, truncated, turns[i].bytes, cap, sofar);
        OutputSplits(turns, i, sofar);
        sofar := sofar + turns[i].bytes;
      }
      i := i + 1;
    }
    FollowsToTheEnd(turns, i, sofar);
    timedOut := i < |turns| && turns[i].Expired?;
  }

  function Joined(chunks: seq<seq<byte>>, from: nat): seq<byte>
    decreases |chunks| - from
  {
    if from >= |chunks| then [] else chunks[from] + Joined(chunks, from + 1)
  }

  /** The turns in which a child writes these chunks and closes its output. */
  function Turns(chunks: seq<seq<byte>>): (turns: seq<Turn>)
    ensures |turns| == |chunks| + 1 && turns[|chunks|] == Chunk([])
    ensures forall k :: 0 <= k < |chunks| ==> turns[k] == Chunk(chunks[k])
  {
    seq(|chunks|, k requires 0 <= k < |chunks| => Chunk(chunks[k])) + [Chunk([])]
  }

  /** A child's whole output is what its chunks join to. */
  lemma {:induction false} OutputOfChunks(chunks: seq<seq<byte>>, from: nat)
    requires from <= |chunks| && forall k :: 0 <= k < |chunks| ==> chunks[k] != []
    ensures Output(Turns(chunks), from) == Joined(chunks, from) && !TimesOut(Turns(chunks), from)
    decreases |chunks| - from
  {
    if from < |chunks| {
      OutputOfChunks(chunks, from + 1);
    }
  }

  function Bytes(turn: Turn): seq<byte> {
    if turn.Chunk? then turn.bytes else []
  }

  /** The loop reads what comes before the first deadline or end, and times out exactly when that is a deadline. */
  lemma {:induction false} ReadsToTheStop(turns: seq<Turn>, from: nat, stop: nat)
    requires from <= stop <= |turns|
    requires forall k :: from <= k < stop ==> turns[k] != Expired && turns[k] != Chunk([])
    requires stop < |turns| ==> turns[stop] == Expired || turns[stop] == Chunk([])
    ensures TimesOut(turns, from) <==> stop < |turns| && turns[stop] == Expired
    ensures Output(turns, from) == Joined(seq(stop, k requires 0 <= k < stop => Bytes(turns[k])), from)
    decreases stop - from
  {
    if from < stop {
      ReadsToTheStop(turns, from + 1, stop);
    }
  }

  // ---- reading one byte at a time ----

  function Singles(bytes: seq<byte>): (turns: seq<Turn>)
    ensures |turns| == |bytes|
    ensures forall k :: 0 <= k < |bytes| ==> turns[k] == Chunk([bytes[k]])
  {
    seq(|bytes|, k requires 0 <= k < |bytes| => Chunk([bytes[k]]))
  }

  /** The same turns with every chunk cut into single bytes, without the quiet waits, up to what stops the loop. */
  function Bytewise(turns: seq<Turn>, from: nat): seq<Turn>
    decreases |turns| - from
  {
    if from >= |turns| then []
    else if Stops(turns[from]) then [turns[from]]
    else if turns[from].Chunk? then Singles(turns[from].bytes) + Bytewise(turns, from + 1)
    else Bytewise(turns, from + 1)
  }

  lemma {:induction false} ReadsOn(front: seq<Turn>, rest: seq<Turn>, j: nat)
    requires j <= |rest|
    ensures Output(front + rest, |front| + j) == Output(rest, j)
    ensures TimesOut(front + rest, |front| + j) == TimesOut(rest, j)
    decreases |rest| - j
  {
    if j < |rest| {
      assert (front + rest)[|front| + j] == rest[j];
      ReadsOn(front, rest, j + 1);
    }
  }

  lemma {:induction false} SinglesRead(bytes: seq<byte>, rest: seq<Turn>, k: nat)
    requires k <= |bytes|
    ensures Output(Singles(bytes) + rest, k) == bytes[k..] + Output(rest, 0)
    ensures TimesOut(Singles(bytes) + rest, k) == TimesOut(rest, 0)
    decreases |bytes| - k
  {
    if k == |bytes| {
      ReadsOn(Singles(bytes), rest, 0);
    } else {
      var turns := Singles(bytes) + rest;
      SinglesRead(bytes, rest, k + 1);
      assert turns[k] == Chunk([bytes[k]]);
      assert bytes[k..] == [bytes[k]] + bytes[k + 1..];
      assert ([bytes[k]] + bytes[k + 1..]) + Output(rest, 0) == [bytes[k]] + (bytes[k + 1..] + Output(rest, 0));
    }
  }

  /** Byte by byte and without waits the same is read, and the deadline is met or missed alike. */
  lemma {:induction false} BytewiseReadsTheSame(turns: seq<Turn>, from: nat)
    requires from <= |turns|
    ensures Output(Bytewise(turns, from), 0) == Output(turns, from)
    ensures TimesOut(Bytewise(turns, from), 0) == TimesOut(turns, from)
    decreases |turns| - from
  {
    if from < |turns| && !Stops(turns[from]) {
      BytewiseReadsTheSame(turns, from + 1);
      if turns[from].Chunk? {
        SinglesRead(turns[from].bytes, Bytewise(turns, from + 1), 0);
        assert turns[from].bytes[0..] == turns[from].bytes;
      }
    }
  }

  /**
   Two readings that come to the same bytes and stop alike, whatever the chunks and the waits between them, retain
   the same, agree on whether there was more, and agree on the deadline.
   */
  lemma BoundariesDoNotMatter(turns: seq<Turn>, others: seq<Turn>, cap: int)
    requires Bytewise(turns, 0) == Bytewise(others, 0)
    ensures Capped(Output(turns, 0), cap) == Capped(Output(others, 0), cap)
    ensures |Output(turns, 0)| > Room(cap) <==> |Output(others, 0)| > Room(cap)
    ensures TimesOut(turns, 0) == TimesOut(others, 0)
  {
    BytewiseReadsTheSame(turns, 0);
    BytewiseReadsTheSame(others, 0);
  }

  /** A child's chunks come to the single bytes they join to, and the end. */
  lemma {:induction false} BytewiseOfChunks(chunks: seq<seq<byte>>, from: nat)
    requires from <= |chunks| && forall k :: 0 <= k < |chunks| ==> chunks[k] != []
    ensures Bytewise(Turns(chunks), from) == Singles(Joined(chunks, from)) + [Chunk([])]
    decreases |chunks| - from
  {
    if from < |chunks| {
      var rest := Joined(chunks, from + 1);
      BytewiseOfChunks(chunks, from + 1);
      assert Singles(chunks[from]) + (Singles(rest) + [Chunk([])]) == Singles(chunks[from] + rest) + [Chunk([])];
    } else {
      assert Singles([]) + [Chunk([])] == [Chunk([])];
    }
  }

  /** In particular, a child that writes the same output in other chunks is read the same, and in time. */
  lemma ChunkingDoesNotMatter(chunks: seq<seq<byte>>, others: seq<seq<byte>>, cap: int)
    requires forall k :: 0 <= k < |chunks| ==> chunks[k] != []
    requires forall k :: 0 <= k < |others| ==> others[k] != []
    requires Joined(chunks, 0) == Joined(others, 0)
    ensures Capped(Output(Turns(chunks), 0), cap) == Capped(Output(Turns(others), 0), cap)
    ensures |Output(Turns(chunks), 0)| > Room(cap) <==> |Output(Turns(others), 0)| > Room(cap)
    ensures !TimesOut(Turns(chunks), 0) && !TimesOut(Turns(others), 0)
  {
    BytewiseOfChunks(chunks, 0);
    BytewiseOfChunks(others, 0);
    BoundariesDoNotMatter(Turns(chunks), Turns(others), cap);
    OutputOfChunks(chunks, 0);
  }
}

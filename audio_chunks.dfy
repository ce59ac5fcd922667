/**
  The audio chunks collected during one recording session (`audioChunks`).
  A chunk is the byte content of the Blob a `dataavailable` event carries;
  its `size` is its length.
 */
module AudioChunks {

  newtype byte = x: int | 0 <= x < 256

  type Chunk = seq<byte>

  /** The `ondataavailable` filter: only chunks with size > 0 are kept. */
  predicate Kept(data: Chunk) {
    |data| > 0
  }

  /** The chunk list after a session whose `dataavailable` events carried `events`, in order. */
  function Collected(events: seq<Chunk>): seq<Chunk> {
    if events == [] then []
    else (if Kept(events[0]) then [events[0]] else []) + Collected(events[1..])
  }

  /** A chunk is collected exactly when some event carried it and it is non-empty. */
  lemma {:induction false} CollectedMembers(events: seq<Chunk>)
    ensures |Collected(events)| <= |events|
    ensures forall c :: c in Collected(events) <==> c in events && Kept(c)
  {
    if events != [] {
      CollectedMembers(events[1..]);
      assert events == [events[0]] + events[1..];
    }
  }

  /** Collecting over two stretches of events is collecting each and concatenating. */
  lemma {:induction false} CollectedConcat(a: seq<Chunk>, b: seq<Chunk>)
    ensures Collected(a + b) == Collected(a) + Collected(b)
  {
    if a != [] {
      assert (a + b)[0] == a[0] && (a + b)[1..] == a[1..] + b;
      CollectedConcat(a[1..], b);
    } else {
      assert a + b == b;
    }
  }

  /** One more event: its chunk goes at the end when non-empty, and nothing else changes. */
  lemma CollectedSnoc(events: seq<Chunk>, data: Chunk)
    ensures Collected(events + [data]) == Collected(events) + (if Kept(data) then [data] else [])
  {
    CollectedConcat(events, [data]);
    assert [data][1..] == [];
  }

  /** The bytes of the Blob built from a list of chunks: their concatenation. */
  function Bytes(chunks: seq<Chunk>): seq<byte> {
    if chunks == [] then [] else chunks[0] + Bytes(chunks[1..])
  }

  /** Dropping empty chunks never changes the bytes of the recording. */
  lemma {:induction false} CollectedBytes(events: seq<Chunk>)
    ensures Bytes(Collected(events)) == Bytes(events)
  {
    if events != [] {
      CollectedBytes(events[1..]);
      BytesConcat(if Kept(events[0]) then [events[0]] else [], Collected(events[1..]));
    }
  }

  lemma {:induction false} BytesConcat(a: seq<Chunk>, b: seq<Chunk>)
    ensures Bytes(a + b) == Bytes(a) + Bytes(b)
  {
    if a != [] {
      assert (a + b)[0] == a[0] && (a + b)[1..] == a[1..] + b;
      BytesConcat(a[1..], b);
    } else {
      assert a + b == b;
    }
  }
}

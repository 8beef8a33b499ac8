/** The batching policy that each driver writes out for itself: `ingest`
    appends while the buffer is below capacity; at capacity it hands the whole
    buffer to the backend, empties it once the backend has accepted it, and
    drops the document that arrived; `ingestWait` hands the buffer over once
    more and leaves it as it is. The drivers differ in the entries per
    document, the capacity and whether `ingestWait` skips an empty buffer;
    those are the parameters here. */
module Batching {
  import opened Wrappers
  import opened Js

  /** The record Typesense, Meilisearch and SQLite buffer for one document. */
  datatype Row = Row(id: Value, title: Value, originalTitle: Value, overview: Value)

  /** `{ id: document.id, title: document.title, ... }`: the first property
      read throws when the document is `undefined` or `null`, which is what a
      line that failed to parse hands over. */
  function RowOf(document: Value): (r: Result<Row, Error>)
    ensures r.Failure? <==> Nullish(document)
    ensures r.Failure? ==> r.error == TypeError
    ensures r.Success? ==> r.value == Row(Prop(document, "id").value, Prop(document, "title").value,
                                         Prop(document, "original_title").value, Prop(document, "overview").value)
  {
    if Nullish(document) then Failure(TypeError)
    else Success(Row(Prop(document, "id").value, Prop(document, "title").value,
                     Prop(document, "original_title").value, Prop(document, "overview").value))
  }

  /** The entries pushed for one document by the drivers that buffer one
      record per document. */
  function RecordOf(document: Value): (r: Result<seq<Row>, Error>)
    ensures r.Failure? <==> Nullish(document)
    ensures r.Success? ==> r.value == [RowOf(document).value]
  {
    match RowOf(document)
    case Failure(e) => Failure(e)
    case Success(row) => Success([row])
  }

  /** What one call of `ingest` or `ingestWait` does: the new buffer, the
      batch it handed to the backend if any, and whether it threw. */
  datatype Step<E> = Step(buffer: seq<E>, handed: Option<seq<E>>, outcome: Outcome<Error>)

  /** `ingest`. `entries` are the entries built from the document (or the
      error building them threw); `flushed` is how the backend's bulk write
      ended, consulted only when the buffer is full. */
  function Ingest<E>(buffer: seq<E>, capacity: int, entries: Result<seq<E>, Error>, flushed: Outcome<Error>): Step<E>
  {
    if |buffer| < capacity then
      match entries
      case Success(es) => Step(buffer + es, None, Pass)
      case Failure(e) => Step(buffer, None, Fail(e))
    else
      Step(if flushed.Pass? then [] else buffer, Some(buffer), flushed)
  }

  /** `ingestWait`: `skipsEmpty` is the `length === 0` guard that all drivers
      but Meilisearch have. */
  function Wait<E>(buffer: seq<E>, skipsEmpty: bool, flushed: Outcome<Error>): (s: Step<E>)
    ensures s.buffer == buffer
    ensures s.handed.None? <==> skipsEmpty && buffer == []
    ensures s.handed.Some? ==> s.handed.value == buffer && s.outcome == flushed
    ensures s.handed.None? ==> s.outcome == Pass
  {
    if skipsEmpty && buffer == [] then Step(buffer, None, Pass) else Step(buffer, Some(buffer), flushed)
  }

  /** A full buffer is handed over whole; a document that finds it full is
      dropped, and the buffer is emptied only when the write succeeded. */
  lemma FullBufferDropsDocument<E>(buffer: seq<E>, capacity: int, entries: Result<seq<E>, Error>, flushed: Outcome<Error>)
    requires |buffer| >= capacity
    ensures var s := Ingest(buffer, capacity, entries, flushed);
      s.handed == Some(buffer) && s.outcome == flushed &&
      (flushed.Pass? ==> s.buffer == []) && (flushed.Fail? ==> s.buffer == buffer)
  {
  }

  /** The shape invariant a driver keeps: whole documents of `width` entries,
      never more than the capacity. */
  predicate Shaped<E>(buffer: seq<E>, capacity: nat, width: nat) {
    width >= 1 && |buffer| % width == 0 && |buffer| <= capacity
  }

  lemma {:induction false} IngestKeepsShape<E>(buffer: seq<E>, capacity: nat, width: nat,
                                                 entries: Result<seq<E>, Error>, flushed: Outcome<Error>)
    requires width >= 1 && capacity % width == 0
    requires Shaped(buffer, capacity, width)
    requires entries.Success? ==> |entries.value| == width
    ensures Shaped(Ingest(buffer, capacity, entries, flushed).buffer, capacity, width)
  {
    if |buffer| < capacity && entries.Success? {
      var a, c := |buffer| / width, capacity / width;
      assert |buffer| == a * width;
      assert capacity == c * width;
      MultipliesBelow(a, c, width);
      assert (|buffer| + width) % width == 0 by { ModOfMultiple(a + 1, width); }
    }
  }

  lemma MultipliesBelow(a: int, c: int, w: int)
    requires w >= 1 && a * w < c * w
    ensures (a + 1) * w <= c * w
  {
    if a < c {
      MulMonotone(a + 1, c, w);
    }
  }

  lemma MulMonotone(x: int, y: int, w: int)
    requires x <= y && w >= 0
    ensures x * w <= y * w
  {
    assert y * w - x * w == (y - x) * w;
  }

  lemma ModOfMultiple(q: int, w: int)
    requires w >= 1
    ensures (q * w) % w == 0
  {
    DivModUnique(q * w, w, q, 0);
  }

  /** Euclidean division is determined by its quotient and remainder. */
  lemma DivModUnique(a: int, m: int, q: int, r: int)
    requires m >= 1 && 0 <= r < m && a == q * m + r
    ensures a / m == q && a % m == r
  {
    var q', r' := a / m, a % m;
    assert a == q' * m + r';
    if q' < q {
      MulMonotone(q' + 1, q, m);
    } else if q' > q {
      MulMonotone(q + 1, q', m);
    }
  }

  lemma DivModNext(k: nat, m: nat)
    requires m >= 1
    ensures k % m < m - 1 ==> (k + 1) % m == k % m + 1 && (k + 1) / m == k / m
    ensures k % m == m - 1 ==> (k + 1) % m == 0 && (k + 1) / m == k / m + 1
  {
    var q, r := k / m, k % m;
    assert k == q * m + r;
    if r < m - 1 {
      DivModUnique(k + 1, m, q, r + 1);
    } else {
      DivModUnique(k + 1, m, q + 1, 0);
    }
  }

  /** The buffer and the log of handed batches after a sequence of well-formed
      documents (given by their entries) whose bulk writes all succeed. */
  datatype Trace<E> = Trace(buffer: seq<E>, handed: seq<seq<E>>)

  function HandedList<E>(handed: Option<seq<E>>): seq<seq<E>> {
    if handed.Some? then [handed.value] else []
  }

  function Replay<E>(capacity: int, docs: seq<seq<E>>): Trace<E>
    decreases |docs|
  {
    if docs == [] then Trace([], [])
    else
      var t := Replay(capacity, docs[..|docs| - 1]);
      var s := Ingest(t.buffer, capacity, Success(docs[|docs| - 1]), Pass);
      Trace(s.buffer, t.handed + HandedList(s.handed))
  }

  function Flatten<E>(batches: seq<seq<E>>): seq<E>
    decreases |batches|
  {
    if batches == [] then [] else Flatten(batches[..|batches| - 1]) + batches[|batches| - 1]
  }

  lemma FlattenSnoc<E>(batches: seq<seq<E>>, b: seq<E>)
    ensures Flatten(batches + [b]) == Flatten(batches) + b
  {
    assert (batches + [b])[..|batches|] == batches;
  }

  /** The documents that survive when every document finding the buffer
      full (the one after each run of `perBatch`) is dropped. */
  function Kept<E>(docs: seq<seq<E>>, perBatch: nat): seq<seq<E>>
    decreases |docs|
  {
    if docs == [] then []
    else Kept(docs[..|docs| - 1], perBatch) +
         (if (|docs| - 1) % (perBatch + 1) == perBatch then [] else [docs[|docs| - 1]])
  }

  /** One more document below capacity is appended; at capacity the buffer
      is handed over and the document dropped. */
  lemma ReplaySnoc<E>(capacity: int, docs: seq<seq<E>>, d: seq<E>)
    ensures var t := Replay(capacity, docs);
      Replay(capacity, docs + [d]) ==
        if |t.buffer| < capacity then Trace(t.buffer + d, t.handed) else Trace([], t.handed + [t.buffer])
  {
    assert (docs + [d])[..|docs|] == docs;
  }

  lemma KeptSnoc<E>(docs: seq<seq<E>>, perBatch: nat, d: seq<E>)
    ensures Kept(docs + [d], perBatch) ==
      Kept(docs, perBatch) + (if |docs| % (perBatch + 1) == perBatch then [] else [d])
  {
    assert (docs + [d])[..|docs|] == docs;
  }

  /** Starting from an empty buffer of `perBatch` documents of `width`
      entries each, after k successful ingests the buffer holds k mod
      (perBatch + 1) documents and k div (perBatch + 1) batches, each of them
      full, have been handed over. */
  lemma {:induction false} Cadence<E>(width: nat, perBatch: nat, docs: seq<seq<E>>)
    requires width >= 1
    requires forall i :: 0 <= i < |docs| ==> |docs[i]| == width
    ensures var t := Replay(width * perBatch, docs);
      && |t.buffer| == width * (|docs| % (perBatch + 1))
      && |t.handed| == |docs| / (perBatch + 1)
      && (forall j :: 0 <= j < |t.handed| ==> |t.handed[j]| == width * perBatch)
    decreases |docs|
  {
    CadenceAt(width, perBatch, width * perBatch, docs);
  }

  lemma {:induction false} CadenceAt<E>(width: nat, perBatch: nat, cap: nat, docs: seq<seq<E>>)
    requires width >= 1 && cap == width * perBatch
    requires forall i :: 0 <= i < |docs| ==> |docs[i]| == width
    ensures var t := Replay(cap, docs);
      && |t.buffer| == width * (|docs| % (perBatch + 1))
      && |t.handed| == |docs| / (perBatch + 1)
      && (forall j :: 0 <= j < |t.handed| ==> |t.handed[j]| == cap)
    decreases |docs|
  {
    if docs != [] {
      var k := |docs| - 1;
      var prefix, d := docs[..k], docs[k];
      assert docs == prefix + [d];
      CadenceAt(width, perBatch, cap, prefix);
      var t := Replay(cap, prefix);
      ReplaySnoc(cap, prefix, d);
      var r := k % (perBatch + 1);
      DivModNext(k, perBatch + 1);
      var b := |t.buffer|;
      assert b == width * r;
      if r < perBatch {
        CountBelow(width, perBatch, r, b);
        assert |t.buffer + d| == width * (r + 1);
      } else {
        assert b == cap;
      }
    }
  }

  lemma CountBelow(width: nat, perBatch: nat, r: nat, b: nat)
    requires b == width * r && r < perBatch
    ensures b < width * perBatch || width == 0
    ensures b + width == width * (r + 1)
  {
    if width > 0 { MulMonotone(r + 1, perBatch, width); }
  }

  /** A capacity of zero or less (SQLite accepts a negative batch size)
      keeps nothing: every ingest hands over the empty buffer and drops its
      document. */
  lemma {:induction false} NoCapacityDropsAll<E>(capacity: int, docs: seq<seq<E>>)
    requires capacity <= 0
    ensures Replay(capacity, docs).buffer == []
    ensures |Replay(capacity, docs).handed| == |docs|
    ensures forall j :: 0 <= j < |docs| ==> Replay(capacity, docs).handed[j] == []
    decreases |docs|
  {
    if docs != [] {
      NoCapacityDropsAll(capacity, docs[..|docs| - 1]);
    }
  }

  /** Nothing is handed twice and nothing is lost but the dropped documents:
      the handed batches followed by the buffer are the input without every
      document that found the buffer full, in order. */
  lemma {:induction false} OnlyDroppedAreLost<E>(width: nat, perBatch: nat, docs: seq<seq<E>>)
    requires width >= 1
    requires forall i :: 0 <= i < |docs| ==> |docs[i]| == width
    ensures var t := Replay(width * perBatch, docs);
      Flatten(t.handed) + t.buffer == Flatten(Kept(docs, perBatch))
  {
    OnlyDroppedAreLostAt(width, perBatch, width * perBatch, docs);
  }

  lemma {:induction false} OnlyDroppedAreLostAt<E>(width: nat, perBatch: nat, cap: nat, docs: seq<seq<E>>)
    requires width >= 1 && cap == width * perBatch
    requires forall i :: 0 <= i < |docs| ==> |docs[i]| == width
    ensures var t := Replay(cap, docs);
      Flatten(t.handed) + t.buffer == Flatten(Kept(docs, perBatch))
    decreases |docs|
  {
    if docs != [] {
      var k := |docs| - 1;
      var prefix, d := docs[..k], docs[k];
      assert docs == prefix + [d];
      OnlyDroppedAreLostAt(width, perBatch, cap, prefix);
      CadenceAt(width, perBatch, cap, prefix);
      var t := Replay(cap, prefix);
      ReplaySnoc(cap, prefix, d);
      KeptSnoc(prefix, perBatch, d);
      var r := k % (perBatch + 1);
      var before := Kept(prefix, perBatch);
      if r < perBatch {
        CountBelow(width, perBatch, r, |t.buffer|);
        assert Replay(cap, docs) == Trace(t.buffer + d, t.handed);
        assert Kept(docs, perBatch) == before + [d];
        FlattenSnoc(before, d);
        assert Flatten(t.handed) + (t.buffer + d) == (Flatten(t.handed) + t.buffer) + d;
      } else {
        assert |t.buffer| == cap;
        assert Replay(cap, docs) == Trace([], t.handed + [t.buffer]);
        assert Kept(docs, perBatch) == before;
        FlattenSnoc(t.handed, t.buffer);
      }
    }
  }
}

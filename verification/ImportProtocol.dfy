/**
  The crash-tolerant import: check the completion markers, import the artifacts that have none with
  parallel workers, then record their markers. The store keeps the last write of every point key.
 */
module ImportProtocol {
  import opened RawImport

  type Store = map<PointKey, map<string, real>>

  /** The batches one worker writes for one file, in order. */
  type Stream = seq<seq<Point>>

  // ------------------------------------------------------------- last write wins

  function Apply(points: seq<Point>, store: Store): Store {
    if points == [] then store else
    var last := points[|points| - 1];
    Apply(points[..|points| - 1], store)[last.key := last.fields]
  }

  lemma {:induction false} ApplyOverwrites(points: seq<Point>, store: Store)
    ensures Apply(points, store) == store + Apply(points, map[])
  {
    if points == [] {
    } else {
      ApplyOverwrites(points[..|points| - 1], store);
    }
  }

  lemma {:induction false} ApplyConcat(a: seq<Point>, b: seq<Point>, store: Store)
    ensures Apply(a + b, store) == Apply(b, Apply(a, store))
  {
    if b == [] {
      assert a + b == a;
    } else {
      var init := b[..|b| - 1];
      ApplyConcat(a, init, store);
      assert (a + b)[..|a + b| - 1] == a + init;
    }
  }

  function ApplyAll(batches: Stream, store: Store): Store {
    if batches == [] then store else ApplyAll(batches[1..], Apply(batches[0], store))
  }

  lemma {:induction false} ApplyAllOverwrites(batches: Stream, store: Store)
    ensures ApplyAll(batches, store) == store + ApplyAll(batches, map[])
  {
    if batches == [] {
    } else {
      var first := Apply(batches[0], map[]);
      ApplyOverwrites(batches[0], store);
      ApplyAllOverwrites(batches[1..], Apply(batches[0], store));
      ApplyAllOverwrites(batches[1..], first);
    }
  }

  /** What a file leaves in an empty store: its last value for every key it mentions. */
  function Final(stream: Stream): Store {
    ApplyAll(stream, map[])
  }

  lemma FinalTail(stream: Stream)
    requires stream != []
    ensures Final(stream) == Apply(stream[0], map[]) + Final(stream[1..])
  {
    ApplyAllOverwrites(stream[1..], Apply(stream[0], map[]));
  }

  // ------------------------------------------------------------- interleavings of the workers

  ghost predicate Exhausted(streams: seq<Stream>) {
    forall stream :: stream in streams ==> stream == []
  }

  predicate CanWrite(streams: seq<Stream>, i: nat) {
    i < |streams| && streams[i] != []
  }

  function Written(streams: seq<Stream>, i: nat): seq<Stream>
    requires CanWrite(streams, i)
  {
    streams[i := streams[i][1..]]
  }

  /** `writes` is some order in which the workers can get all their batches into the store. */
  ghost predicate Interleaving(streams: seq<Stream>, writes: Stream)
    decreases |writes|
  {
    if writes == [] then Exhausted(streams) else
    exists i: nat :: CanWrite(streams, i) && streams[i][0] == writes[0] &&
        Interleaving(Written(streams, i), writes[1..])
  }

  /** Files that mention the same point key end on the same value for it. */
  ghost predicate Agree(streams: seq<Stream>) {
    forall a, b, key :: a in streams && b in streams && key in Final(a) && key in Final(b) ==>
        Final(a)[key] == Final(b)[key]
  }

  /** `result` has every file's final values, and is `store` elsewhere. */
  ghost predicate Lands(streams: seq<Stream>, store: Store, result: Store) {
    && (forall stream, key :: stream in streams && key in Final(stream) ==>
        key in result && result[key] == Final(stream)[key])
    && (forall key :: (forall stream :: stream in streams ==> key !in Final(stream)) ==>
          (key in result <==> key in store) && (key in store ==> result[key] == store[key]))
  }

  /** What one write changes: only the worker's own stream, and only the keys of its batch. */
  lemma OneWrite(streams: seq<Stream>, i: nat, store: Store)
    requires CanWrite(streams, i)
    ensures var rest, batch := Written(streams, i), Apply(streams[i][0], map[]);
      && Apply(streams[i][0], store) == store + batch
      && Final(streams[i]) == batch + Final(rest[i])
      && (forall stream :: stream in rest ==> stream in streams || stream == rest[i])
      && (forall stream :: stream in streams ==> stream in rest || stream == streams[i])
  {
    ApplyOverwrites(streams[i][0], store);
    FinalTail(streams[i]);
    var rest := Written(streams, i);
    forall stream | stream in streams
      ensures stream in rest || stream == streams[i]
    {
      var j :| 0 <= j < |streams| && streams[j] == stream;
      assert j != i ==> rest[j] == stream;
    }
  }

  lemma AgreeAfterWrite(streams: seq<Stream>, i: nat)
    requires CanWrite(streams, i) && Agree(streams)
    ensures Agree(Written(streams, i))
  {
    OneWrite(streams, i, map[]);
    var rest := Written(streams, i);
    forall a, key | a in rest && key in Final(a)
      ensures exists b :: b in streams && key in Final(b) && Final(b)[key] == Final(a)[key]
    {
      if a !in streams {
        assert streams[i] in streams && Final(streams[i])[key] == Final(a)[key];
      }
    }
  }

  lemma LaterAgrees(streams: seq<Stream>, i: nat, later: Stream, stream: Stream, key: PointKey)
    requires CanWrite(streams, i) && Agree(streams) && later in Written(streams, i) && key in Final(later)
    requires stream in streams && key in Final(stream)
    ensures Final(later)[key] == Final(stream)[key]
  {
    OneWrite(streams, i, map[]);
    if later !in streams {
      assert streams[i] in streams && Final(streams[i])[key] == Final(later)[key];
    }
  }

  lemma LandsBeforeWriteAt(streams: seq<Stream>, i: nat, store: Store, result: Store, stream: Stream, key: PointKey)
    requires CanWrite(streams, i) && Agree(streams)
    requires Lands(Written(streams, i), Apply(streams[i][0], store), result)
    requires stream in streams && key in Final(stream)
    ensures key in result && result[key] == Final(stream)[key]
  {
    OneWrite(streams, i, store);
    var rest := Written(streams, i);
    assert rest[i] in rest && streams[i] in streams;
    if later :| later in rest && key in Final(later) {
      LaterAgrees(streams, i, later, stream, key);
    }
  }

  lemma LandsBeforeWriteElsewhere(streams: seq<Stream>, i: nat, store: Store, result: Store, key: PointKey)
    requires CanWrite(streams, i)
    requires Lands(Written(streams, i), Apply(streams[i][0], store), result)
    requires forall stream :: stream in streams ==> key !in Final(stream)
    ensures (key in result <==> key in store) && (key in store ==> result[key] == store[key])
  {
    OneWrite(streams, i, store);
    assert streams[i] in streams;
  }

  lemma LandsBeforeWrite(streams: seq<Stream>, i: nat, store: Store, result: Store)
    requires CanWrite(streams, i) && Agree(streams)
    requires Lands(Written(streams, i), Apply(streams[i][0], store), result)
    ensures Lands(streams, store, result)
  {
    forall stream, key | stream in streams && key in Final(stream)
      ensures key in result && result[key] == Final(stream)[key]
    {
      LandsBeforeWriteAt(streams, i, store, result, stream, key);
    }
    forall key | forall stream :: stream in streams ==> key !in Final(stream)
      ensures (key in result <==> key in store) && (key in store ==> result[key] == store[key])
    {
      LandsBeforeWriteElsewhere(streams, i, store, result, key);
    }
  }

  /** Every interleaving of files that agree leaves the same store: their final values over what was there. */
  lemma {:induction false} InterleavingLands(streams: seq<Stream>, writes: Stream, store: Store)
    requires Agree(streams) && Interleaving(streams, writes)
    ensures Lands(streams, store, ApplyAll(writes, store))
    decreases |writes|
  {
    if writes == [] {
    } else {
      var i: nat :| CanWrite(streams, i) && streams[i][0] == writes[0] &&
          Interleaving(Written(streams, i), writes[1..]);
      AgreeAfterWrite(streams, i);
      InterleavingLands(Written(streams, i), writes[1..], Apply(writes[0], store));
      LandsBeforeWrite(streams, i, store, ApplyAll(writes, store));
    }
  }

  lemma LandsOnceAt(streams: seq<Stream>, store: Store, a: Store, b: Store, key: PointKey)
    requires Lands(streams, store, a) && Lands(streams, store, b)
    ensures (key in a <==> key in b) && (key in a ==> a[key] == b[key])
  {
    if stream :| stream in streams && key in Final(stream) {
      assert key in a && key in b;
    } else {
      assert key in a <==> key in store;
    }
  }

  lemma LandsOnce(streams: seq<Stream>, store: Store, a: Store, b: Store)
    requires Lands(streams, store, a) && Lands(streams, store, b)
    ensures a == b
  {
    forall key {
      LandsOnceAt(streams, store, a, b, key);
    }
  }

  lemma LandsAgain(streams: seq<Stream>, store: Store, once: Store)
    requires Lands(streams, store, once)
    ensures Lands(streams, once, once)
  {
  }

  /** Importing everything a second time, in whatever order, changes nothing. */
  lemma RepeatedImportIsIdle(streams: seq<Stream>, first: Stream, second: Stream, store: Store)
    requires Agree(streams) && Interleaving(streams, first) && Interleaving(streams, second)
    ensures ApplyAll(second, ApplyAll(first, store)) == ApplyAll(first, store)
  {
    var once := ApplyAll(first, store);
    InterleavingLands(streams, first, store);
    InterleavingLands(streams, second, once);
    LandsAgain(streams, store, once);
    LandsOnce(streams, once, once, ApplyAll(second, once));
  }

  // ------------------------------------------------------------- when order is irrelevant

  ghost predicate OrderIrrelevant(streams: seq<Stream>) {
    forall v, w, store :: Interleaving(streams, v) && Interleaving(streams, w) ==>
        ApplyAll(v, store) == ApplyAll(w, store)
  }

  /** The batches still to be written, over all files. */
  function Left(streams: seq<Stream>): nat {
    if streams == [] then 0 else |streams[0]| + Left(streams[1..])
  }

  lemma {:induction false} LeftAfterWrite(streams: seq<Stream>, i: nat)
    requires CanWrite(streams, i)
    ensures Left(Written(streams, i)) + 1 == Left(streams)
    decreases i
  {
    if i > 0 {
      LeftAfterWrite(streams[1..], i - 1);
      assert Written(streams, i)[1..] == Written(streams[1..], i - 1);
    } else {
      assert Written(streams, i)[1..] == streams[1..];
    }
  }

  lemma {:induction false} StreamAlone(streams: seq<Stream>, last: nat)
    requires last < |streams| && forall j :: 0 <= j < |streams| && j != last ==> streams[j] == []
    ensures Interleaving(streams, streams[last])
    decreases |streams[last]|
  {
    var stream := streams[last];
    if stream == [] {
      assert Exhausted(streams);
    } else {
      StreamAlone(Written(streams, last), last);
      assert CanWrite(streams, last) && streams[last][0] == stream[0];
    }
  }

  /** Some interleaving writes one chosen file after all the others. */
  lemma {:induction false} WriteLast(streams: seq<Stream>, last: nat) returns (before: Stream)
    requires last < |streams|
    ensures Interleaving(streams, before + streams[last])
    decreases Left(streams)
  {
    if i: nat :| i != last && CanWrite(streams, i) {
      LeftAfterWrite(streams, i);
      var rest := WriteLast(Written(streams, i), last);
      before := [streams[i][0]] + rest;
      var writes := before + streams[last];
      assert writes[1..] == rest + streams[last];
      assert CanWrite(streams, i) && streams[i][0] == writes[0] && Interleaving(Written(streams, i), writes[1..]);
    } else {
      forall j | 0 <= j < |streams| && j != last
        ensures streams[j] == []
      {
        assert !CanWrite(streams, j);
      }
      StreamAlone(streams, last);
      before := [];
      assert before + streams[last] == streams[last];
    }
  }

  lemma {:induction false} ApplyAllConcat(a: Stream, b: Stream, store: Store)
    ensures ApplyAll(a + b, store) == ApplyAll(b, ApplyAll(a, store))
  {
    if a == [] {
      assert a + b == b;
    } else {
      assert (a + b)[1..] == a[1..] + b;
      ApplyAllConcat(a[1..], b, Apply(a[0], store));
    }
  }

  /**
    The workers' order never matters exactly when files that share a point key agree on its last
    value; sharing no key is the case the importer relies on.
   */
  lemma OrderIrrelevantIffAgree(streams: seq<Stream>)
    ensures OrderIrrelevant(streams) <==> Agree(streams)
  {
    if Agree(streams) {
      forall v, w, store | Interleaving(streams, v) && Interleaving(streams, w)
        ensures ApplyAll(v, store) == ApplyAll(w, store)
      {
        InterleavingLands(streams, v, store);
        InterleavingLands(streams, w, store);
        LandsOnce(streams, store, ApplyAll(v, store), ApplyAll(w, store));
      }
    } else {
      var a, b, key :| a in streams && b in streams && key in Final(a) && key in Final(b) &&
          Final(a)[key] != Final(b)[key];
      var i :| 0 <= i < |streams| && streams[i] == a;
      var j :| 0 <= j < |streams| && streams[j] == b;
      var v := WriteLast(streams, i);
      var w := WriteLast(streams, j);
      EndsWithFinal(v, a, key);
      EndsWithFinal(w, b, key);
      assert ApplyAll(v + a, map[]) != ApplyAll(w + b, map[]);
    }
  }

  lemma EndsWithFinal(before: Stream, last: Stream, key: PointKey)
    requires key in Final(last)
    ensures var store := ApplyAll(before + last, map[]);
      key in store && store[key] == Final(last)[key]
  {
    ApplyAllConcat(before, last, map[]);
    ApplyAllOverwrites(last, ApplyAll(before, map[]));
  }

  /** Batch boundaries do not matter to the store either. */
  lemma {:induction false} BatchesAreTheirPoints(batches: Stream, store: Store)
    ensures ApplyAll(batches, store) == Apply(Flatten(batches), store)
  {
    if batches == [] {
    } else {
      var init, last := batches[..|batches| - 1], batches[|batches| - 1];
      assert batches == init + [last];
      ApplyAllConcat(init, [last], store);
      BatchesAreTheirPoints(init, store);
      ApplyConcat(Flatten(init), last, store);
      assert ApplyAll([last], ApplyAll(init, store)) == Apply(last, ApplyAll(init, store));
    }
  }
}

/**
  Checking with a dict that a value is constant: `notes.setdefault(key(x), value(x)) != value(x)`
  for every x. The dict notices the first x whose value differs from an earlier one with its key.
 */
module Notes {

  ghost predicate Constant<X, K, V>(all: set<X>, key: X -> K, value: X -> V) {
    forall x, y {:trigger key(x), key(y)} :: x in all && y in all && key(x) == key(y) ==> value(x) == value(y)
  }

  /** The dict holds the value of every x that was seen, and nothing else. */
  ghost predicate Noted<X, K, V>(notes: map<K, V>, seen: set<X>, key: X -> K, value: X -> V) {
    && (forall x {:trigger key(x)} :: x in seen ==> key(x) in notes && notes[key(x)] == value(x))
    && (forall k {:trigger Seen(seen, key, k)} :: k in notes ==> Seen(seen, key, k))
  }

  ghost predicate Seen<X, K>(seen: set<X>, key: X -> K, k: K) {
    exists x :: x in seen && key(x) == k
  }

  method SetDefault<K(==), V(==)>(notes: map<K, V>, k: K, v: V) returns (agrees: bool, noted: map<K, V>)
    ensures agrees <==> k in notes ==> notes[k] == v
    ensures agrees ==> noted == notes[k := v]
  {
    noted := if k in notes then notes else notes[k := v];
    agrees := noted[k] == v;
  }

  lemma NotedNext<X, K, V>(notes: map<K, V>, seen: set<X>, key: X -> K, value: X -> V, x: X)
    requires Noted(notes, seen, key, value)
    ensures if key(x) in notes && notes[key(x)] != value(x) then !Constant(seen + {x}, key, value)
            else Noted(notes[key(x) := value(x)], seen + {x}, key, value)
  {
    var now := seen + {x};
    if key(x) in notes {
      assert Seen(seen, key, key(x));
      var y :| y in seen && key(y) == key(x);
      assert x in now && y in now;
    }
    forall k | k in notes[key(x) := value(x)]
      ensures Seen(now, key, k)
    {
      if k in notes {
        assert Seen(seen, key, k);
        var y :| y in seen && key(y) == k;
        assert y in now;
      } else {
        assert x in now;
      }
    }
  }

  lemma NotedIsConstant<X, K, V>(notes: map<K, V>, seen: set<X>, key: X -> K, value: X -> V)
    requires Noted(notes, seen, key, value)
    ensures Constant(seen, key, value)
  {
  }
}

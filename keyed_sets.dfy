/** Sets compared through an identity key: the key image of a set, key
    injectivity (no two distinct elements share a key) and the cardinality
    facts that let a count of elements stand for a count of distinct keys. */
module KeyedSets {

  /** The keys of the elements of `s`. */
  function Image<T, K>(s: set<T>, key: T -> K): set<K>
  {
    set x | x in s :: key(x)
  }

  /** No two distinct elements of `s` share a key. */
  predicate KeyInjective<T, K(==)>(s: set<T>, key: T -> K)
  {
    forall x, y | x in s && y in s && key(x) == key(y) :: x == y
  }

  /** A key-injective set has exactly as many elements as keys. */
  lemma {:induction false} InjectiveImageCard<T, K>(s: set<T>, key: T -> K)
    requires KeyInjective(s, key)
    ensures |Image(s, key)| == |s|
    decreases |s|
  {
    if s != {} {
      var x :| x in s;
      var rest := s - {x};
      InjectiveImageCard(rest, key);
      assert Image(s, key) == Image(rest, key) + {key(x)};
      assert key(x) !in Image(rest, key);
    }
  }

  /** A subset of a key-injective set is key-injective. */
  lemma SubsetKeyInjective<T, K>(a: set<T>, b: set<T>, key: T -> K)
    requires a <= b && KeyInjective(b, key)
    ensures KeyInjective(a, key)
  {
  }

  /** The empty set has no keys. */
  lemma ImageEmpty<T, K>(key: T -> K)
    ensures Image({}, key) == {}
  {
  }

  /** Keys of a union are the union of the keys. */
  lemma ImageUnion<T, K>(a: set<T>, b: set<T>, key: T -> K)
    ensures Image(a + b, key) == Image(a, key) + Image(b, key)
  {
  }

  /** A subset never has more elements. */
  lemma {:induction false} SubsetCard<T>(a: set<T>, b: set<T>)
    requires a <= b
    ensures |a| <= |b|
  {
    assert b == a + (b - a);
  }

  /** Taking a subset out leaves the rest: the two parts add up. */
  lemma {:induction false} DifferenceCard<T>(a: set<T>, b: set<T>)
    requires b <= a
    ensures |a - b| + |b| == |a|
  {
    assert a == (a - b) + b;
  }

  /** The elements of `s` whose key is outside `keys`. */
  function WithoutKeys<T, K>(s: set<T>, keys: set<K>, key: T -> K): set<T>
  {
    set x | x in s && key(x) !in keys
  }

  /** The keys of `keys` that are not `excluded`. */
  function KeysOutside<K>(keys: set<K>, excluded: set<K>): (r: set<K>)
    ensures r <= keys && r !! excluded
  {
    set k | k in keys && k !in excluded
  }

  /** The elements whose key is outside `keys`, in a key-injective set, are
      as many as the keys that remain. */
  lemma WithoutKeysCard<T, K>(s: set<T>, keys: set<K>, key: T -> K)
    requires KeyInjective(s, key)
    ensures |WithoutKeys(s, keys, key)| == |KeysOutside(Image(s, key), keys)|
  {
    var r := WithoutKeys(s, keys, key);
    SubsetKeyInjective(r, s, key);
    assert Image(r, key) == KeysOutside(Image(s, key), keys);
    InjectiveImageCard(r, key);
  }

  /** One step of keeping a representative per key: `x` is added exactly
      when its key is new, and afterwards the kept elements still cover the
      keys of everything seen. */
  lemma KeepIfNewKey<T, K>(kept: set<T>, seen: set<T>, x: T, key: T -> K)
    requires KeyInjective(kept, key) && Image(kept, key) == Image(seen, key)
    ensures key(x) !in Image(kept, key) ==>
      KeyInjective(kept + {x}, key) && Image(kept + {x}, key) == Image(seen + {x}, key)
    ensures key(x) in Image(kept, key) ==> Image(kept, key) == Image(seen + {x}, key)
  {
    ImageUnion(kept, {x}, key);
    ImageUnion(seen, {x}, key);
  }

  /** Every element of `s` has a key-equal representative in `kept` when
      the two have the same keys. */
  lemma RepresentativeOf<T, K>(kept: set<T>, s: set<T>, x: T, key: T -> K)
    requires Image(kept, key) == Image(s, key) && x in s
    ensures exists a | a in kept :: key(a) == key(x)
  {
    assert key(x) in Image(s, key);
  }

  /** A key is new to `kept` exactly when no element of `kept` carries it. */
  lemma NewKeyIff<T, K>(kept: set<T>, x: T, key: T -> K)
    ensures (forall y | y in kept :: key(y) != key(x)) <==> key(x) !in Image(kept, key)
  {
  }
}

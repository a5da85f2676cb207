/** Small facts about sequences and maps, stated once for any element type. */
module CollectionFacts {

  /** Taking one more element of a sequence appends that element. */
  lemma TakeSnoc<T>(s: seq<T>, n: nat)
    requires n < |s|
    ensures s[..n + 1] == s[..n] + [s[n]]
  {
  }

  /** Sequence concatenation is associative. */
  lemma AppendAssoc<T>(a: seq<T>, b: seq<T>, c: seq<T>)
    ensures (a + b) + c == a + (b + c)
  {
  }

  /** Appending two elements one after the other appends the pair. */
  lemma SnocSnoc<T>(s: seq<T>, a: T, b: T)
    ensures (s + [a]) + [b] == s + [a, b]
  {
  }

  /** A two-element prefix is one element and then the other. */
  lemma PairPrefix<T>(a: T, b: T, s: seq<T>)
    ensures [a, b] + s == [a] + ([b] + s)
  {
    assert [a, b] == [a] + [b];
  }

  /** Updating a union updates its right operand. */
  lemma UnionUpdate<K, V>(a: map<K, V>, b: map<K, V>, k: K, v: V)
    ensures (a + b)[k := v] == a + b[k := v]
  {
  }
}

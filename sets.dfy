/** Small facts about finite sets and maps keyed by user id, used when a proof picks an element. */
module Sets {
  /** A set that is not empty has an element. */
  lemma Inhabited(s: set<int>)
    requires s != {}
    ensures exists x :: x in s
  {
    if forall x :: x !in s {
      assert false;
    }
  }

  /** A map that is not empty has a key. */
  lemma HasKey<V>(m: map<int, V>)
    requires m != map[]
    ensures exists k :: k in m
  {
    if forall k :: k !in m {
      assert false;
    }
  }
}

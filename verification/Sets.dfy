/**
 Finite sets.
 */
module Sets {

  lemma Pick<T>(q: set<T>) returns (x: T)
    requires |q| > 0
    ensures x in q
  {
    x :| x in q;
  }

  lemma TwoMembers<T>(q: set<T>) returns (x: T, y: T)
    requires |q| > 1
    ensures x in q && y in q && x != y
  {
    x := Pick(q);
    assert q == (q - {x}) + {x};
    y := Pick(q - {x});
  }

  lemma NotAlone<T>(q: set<T>, peers: set<T>, b: T)
    requires |q| > 1 && q <= peers + {b}
    ensures |peers| > 0
  {
    var x, y := TwoMembers(q);
    assert x in peers || y in peers;
  }

  lemma MoveOver<T>(a: set<T>, rest: set<T>, v: T)
    requires v in rest
    ensures a + {v} + (rest - {v}) == a + rest
  {
  }

  lemma SplitOff<T>(q: set<T>, b: T)
    requires b in q
    ensures {b} + (q - {b}) == q
  {
  }
}

// A family of lists, one per place, that together hold every element of a set
// exactly once; and the ways a step may change such a family.
module Placement {
  import opened Common

  ghost predicate Partition<P(!new), H(!new)>(f: P -> seq<H>, all: set<H>) {
    && (forall p :: NoDup(f(p)))
    && (forall p, h :: h in f(p) ==> h in all)
    && (forall h :: h in all ==> exists p :: h in f(p))
    && (forall p, q, h :: h in f(p) && h in f(q) ==> p == q)
  }

  lemma Stayed<P(!new), H(!new)>(f: P -> seq<H>, g: P -> seq<H>, all: set<H>)
    requires Partition(f, all)
    requires forall p :: g(p) == f(p)
    ensures Partition(g, all)
  {
    forall h | h in all ensures exists p :: h in g(p) {
      var p :| h in f(p);
      assert h in g(p);
    }
  }

  // The elements m go from place a to place b.
  lemma Moved<P(!new), H(!new)>(f: P -> seq<H>, g: P -> seq<H>, all: set<H>, a: P, b: P, m: set<H>)
    requires Partition(f, all) && a != b
    requires m <= Elems(f(a))
    requires Elems(g(a)) == Elems(f(a)) - m && NoDup(g(a))
    requires Elems(g(b)) == Elems(f(b)) + m && NoDup(g(b))
    requires forall p :: p != a && p != b ==> g(p) == f(p)
    ensures Partition(g, all)
  {
    MovedElements(f, g, a, b, m);
    forall p, h | h in g(p) ensures h in all {
      assert if p == b && h in m then h in f(a) else h in f(p);
    }
    forall h | h in all ensures exists p :: h in g(p) {
      var p :| h in f(p);
      assert h in g(if p == a && h in m then b else p);
    }
    forall p, q, h | h in g(p) && h in g(q) ensures p == q {
      assert h in f(if p == b && h in m then a else p);
      assert h in f(if q == b && h in m then a else q);
    }
  }

  lemma MovedElements<P(!new), H(!new)>(f: P -> seq<H>, g: P -> seq<H>, a: P, b: P, m: set<H>)
    requires a != b && m <= Elems(f(a))
    requires Elems(g(a)) == Elems(f(a)) - m
    requires Elems(g(b)) == Elems(f(b)) + m
    requires forall p :: p != a && p != b ==> g(p) == f(p)
    ensures forall p, h :: h in g(p) <==>
              if p == a then h in f(a) && h !in m
              else if p == b then h in f(b) || h in m
              else h in f(p)
    ensures forall h :: h in m ==> h in f(a)
  {
    forall h ensures h in m ==> h in f(a) {
      assert h in f(a) <==> h in Elems(f(a));
    }
    forall h ensures h in g(a) <==> h in f(a) && h !in m {
      assert h in g(a) <==> h in Elems(g(a));
      assert h in f(a) <==> h in Elems(f(a));
    }
    forall h ensures h in g(b) <==> h in f(b) || h in m {
      assert h in g(b) <==> h in Elems(g(b));
      assert h in f(b) <==> h in Elems(f(b));
    }
  }

  // The first element of place a goes to the end of place b.
  lemma MovedHead<P(!new), H(!new)>(f: P -> seq<H>, g: P -> seq<H>, all: set<H>, a: P, b: P)
    requires Partition(f, all) && a != b && f(a) != []
    requires g(a) == f(a)[1..] && g(b) == f(b) + [f(a)[0]]
    requires forall p :: p != a && p != b ==> g(p) == f(p)
    ensures Partition(g, all)
  {
    var h := f(a)[0];
    assert h in f(a);
    assert h !in f(b);
    NoDupTail(f(a));
    NoDupSnoc(f(b), h);
    Moved(f, g, all, a, b, {h});
  }

  // The last element of place a goes to the empty place b.
  lemma MovedLast<P(!new), H(!new)>(f: P -> seq<H>, g: P -> seq<H>, all: set<H>, a: P, b: P)
    requires Partition(f, all) && a != b && f(b) == [] && f(a) != []
    requires g(a) == f(a)[..|f(a)| - 1] && g(b) == [f(a)[|f(a)| - 1]]
    requires forall p :: p != a && p != b ==> g(p) == f(p)
    ensures Partition(g, all)
  {
    NoDupInit(f(a));
    assert Elems(f(b)) == {};
    Moved(f, g, all, a, b, {f(a)[|f(a)| - 1]});
  }

  // Everything in place a goes to the empty place b.
  lemma MovedAll<P(!new), H(!new)>(f: P -> seq<H>, g: P -> seq<H>, all: set<H>, a: P, b: P)
    requires Partition(f, all) && a != b && f(b) == []
    requires g(a) == [] && g(b) == f(a)
    requires forall p :: p != a && p != b ==> g(p) == f(p)
    ensures Partition(g, all)
  {
    assert Elems(f(b)) == {} && Elems(g(a)) == {};
    Moved(f, g, all, a, b, Elems(f(a)));
  }

  // Everything in the places cs goes to the empty place b.
  lemma Gathered<P(!new), H(!new)>(f: P -> seq<H>, g: P -> seq<H>, all: set<H>, cs: iset<P>, b: P)
    requires Partition(f, all) && b !in cs && f(b) == []
    requires NoDup(g(b)) && forall h :: h in g(b) <==> exists p :: p in cs && h in f(p)
    requires forall p :: p in cs ==> g(p) == []
    requires forall p :: p != b && p !in cs ==> g(p) == f(p)
    ensures Partition(g, all)
  {
    forall h | h in all ensures exists p :: h in g(p) {
      var p :| h in f(p);
      assert h in g(if p in cs then b else p);
    }
    forall p, q, h | h in g(p) && h in g(q) ensures p == q {
      if p == b || q == b {
        var r :| r in cs && h in f(r);
      }
    }
  }

  // A new element appears in the empty place b.
  lemma Born<P(!new), H(!new)>(f: P -> seq<H>, g: P -> seq<H>, all: set<H>, b: P, h: H)
    requires Partition(f, all) && h !in all && f(b) == [] && g(b) == [h]
    requires forall p :: p != b ==> g(p) == f(p)
    ensures Partition(g, all + {h})
  {
    forall x | x in all + {h} ensures exists p :: x in g(p) {
      if x == h {
        assert x in g(b);
      } else {
        var p :| x in f(p);
        assert x in g(p);
      }
    }
  }

  // Everything in place a goes to the end of place b.
  lemma MovedOnto<P(!new), H(!new)>(f: P -> seq<H>, g: P -> seq<H>, all: set<H>, a: P, b: P)
    requires Partition(f, all) && a != b
    requires g(a) == [] && g(b) == f(b) + f(a)
    requires forall p :: p != a && p != b ==> g(p) == f(p)
    ensures Partition(g, all)
  {
    forall i, j | 0 <= i < j < |g(b)| ensures g(b)[i] != g(b)[j] {
      if i < |f(b)| <= j {
        assert f(b)[i] in f(b) && f(a)[j - |f(b)|] in f(a);
      }
    }
    assert Elems(g(a)) == {};
    assert Elems(g(b)) == Elems(f(b)) + Elems(f(a));
    Moved(f, g, all, a, b, Elems(f(a)));
  }

  // A new element appears at the end of place b.
  lemma BornOnto<P(!new), H(!new)>(f: P -> seq<H>, g: P -> seq<H>, all: set<H>, b: P, h: H)
    requires Partition(f, all) && h !in all && g(b) == f(b) + [h]
    requires forall p :: p != b ==> g(p) == f(p)
    ensures Partition(g, all + {h})
  {
    assert h !in f(b);
    NoDupSnoc(f(b), h);
    forall x | x in all + {h} ensures exists p :: x in g(p) {
      if x == h {
        assert x in g(b);
      } else {
        var p :| x in f(p);
        assert x in g(p);
      }
    }
  }

  // The one element of place b leaves the family.
  lemma Left<P(!new), H(!new)>(f: P -> seq<H>, g: P -> seq<H>, all: set<H>, b: P, h: H)
    requires Partition(f, all) && f(b) == [h] && g(b) == []
    requires forall p :: p != b ==> g(p) == f(p)
    ensures Partition(g, all - {h})
  {
    assert h in f(b);
    forall x | x in all - {h} ensures exists p :: x in g(p) {
      var p :| x in f(p);
      assert x in g(p);
    }
  }
}

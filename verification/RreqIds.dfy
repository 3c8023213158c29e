/** The request ids a node remembers per originator (aodv/aodv_rreq.cc:60-79). */
module RreqIds {
  import opened Sets

  const OLD_RREQ_COUNT := 100

  lemma SmallestExists(s: set<int>)
    requires s != {}
    ensures exists m :: m in s && forall x :: x in s ==> m <= x
  {
    var x := Member(s);
    if s == {x} {
      assert x in s && forall y :: y in s ==> x <= y;
    } else {
      var rest := s - {x};
      assert s == rest + {x};
      SmallestExists(rest);
      var m :| m in rest && forall y :: y in rest ==> m <= y;
      var least := if x < m then x else m;
      assert least in s && forall y :: y in s ==> least <= y;
    }
  }

  /** `*set.begin()` of an ordered set. */
  function Smallest(s: set<int>): (m: int)
    requires s != {}
    ensures m in s && forall x :: x in s ==> m <= x
  {
    SmallestExists(s);
    var m :| m in s && forall x :: x in s ==> m <= x;
    m
  }

  /** Insert an id, then drop the smallest if there are too many. */
  function Remember(s: set<int>, id: int): set<int> {
    var t := s + {id};
    if |t| > OLD_RREQ_COUNT then t - {Smallest(t)} else t
  }

  /** The ids left after a history of accepted ids, with repetitions. */
  function Remembered(history: seq<int>): set<int> {
    if history == [] then {} else Remember(Remembered(history[..|history| - 1]), history[|history| - 1])
  }

  /** `s` is the `k` largest elements of `all`, or all of them if there are fewer. */
  ghost predicate Largest(s: set<int>, all: set<int>, k: nat) {
    && s <= all
    && |s| == (if |all| < k then |all| else k)
    && forall x, y :: x in s && y in all && y !in s ==> y < x
  }

  lemma LargestIsUnique(s: set<int>, t: set<int>, all: set<int>, k: nat)
    requires Largest(s, all, k) && Largest(t, all, k)
    ensures s == t
  {
    if t <= s {
      SubsetIsSmaller(t, s);
    } else {
      var y := Outside(t, s);
      forall x | x in s
        ensures x in t
      {
      }
      SubsetIsSmaller(s, t);
    }
  }

  function Ids(history: seq<int>): set<int> { set i | 0 <= i < |history| :: history[i] }

  /** In every run the remembered ids are the 100 largest distinct ids ever accepted,
      including when an id that was evicted is accepted again. */
  lemma {:induction false} RememberedIsLargest(history: seq<int>)
    ensures Largest(Remembered(history), Ids(history), OLD_RREQ_COUNT)
  {
    if history != [] {
      var before, id := history[..|history| - 1], history[|history| - 1];
      RememberedIsLargest(before);
      assert Ids(history) == Ids(before) + {id} by {
        assert history == before + [id];
      }
      RememberKeepsLargest(Remembered(before), Ids(before), id);
    }
  }

  lemma RememberKeepsLargest(s: set<int>, all: set<int>, id: int)
    requires Largest(s, all, OLD_RREQ_COUNT)
    ensures Largest(Remember(s, id), all + {id}, OLD_RREQ_COUNT)
  {
    var t := s + {id};
    SubsetIsSmaller(s, all);
    if id in s {
      assert t == s && all + {id} == all;
    } else if |all| < OLD_RREQ_COUNT {
      assert s == all;
    } else {
      var m := Smallest(t);
      var s' := t - {m};
      assert |s'| == OLD_RREQ_COUNT;
      SubsetIsSmaller(all, all + {id});
      forall x, y | x in s' && y in all + {id} && y !in s'
        ensures y < x
      {
        assert y == m || y !in s;
        if x == id && y != m && m != id { assert y < m; }
      }
    }
  }
}

/**
 * A business's list of review references and how the router reads it:
 * `$pull` removes every occurrence of one id, and the ratings the
 * aggregation sees are those of the referenced reviews that still exist.
 */
module References {
  import opened Types
  import ReviewModel
  import Rating

  /** `$pull: { reviews: x }`: every occurrence of x goes, the rest keep their order. */
  function RemoveAll(refs: seq<Id>, x: Id): (r: seq<Id>)
    ensures multiset(r) == multiset(refs)[x := 0]
    ensures forall y :: y in r <==> y in refs && y != x
    decreases |refs|
  {
    if refs == [] then []
    else
      assert refs == [refs[0]] + refs[1..];
      (if refs[0] == x then [] else [refs[0]]) + RemoveAll(refs[1..], x)
  }

  /** No id occurs twice in the list. */
  ghost predicate NoDuplicates(refs: seq<Id>)
  {
    forall y :: multiset(refs)[y] <= 1
  }

  /** Pulling an id that was appended to a list free of it gives the list back. */
  lemma {:induction false} RemoveAllAppended(refs: seq<Id>, x: Id)
    requires x !in refs
    ensures RemoveAll(refs + [x], x) == refs
    decreases |refs|
  {
    if refs == [] {
      assert RemoveAll([x], x) == [] + RemoveAll([], x);
    } else {
      assert (refs + [x])[1..] == refs[1..] + [x];
      RemoveAllAppended(refs[1..], x);
    }
  }

  /**
   * Adding a review and then removing it by its id gives back the reference
   * list, the review table, and so the ratings the average is taken over.
   */
  lemma AddThenRemove(refs: seq<Id>, table: map<Id, ReviewModel.Review>, rid: Id, r: ReviewModel.Review)
    requires rid !in refs && rid !in table
    ensures RemoveAll(refs + [rid], rid) == refs
    ensures table[rid := r] - {rid} == table
    ensures Ratings(RemoveAll(refs + [rid], rid), table[rid := r] - {rid}) == Ratings(refs, table)
  {
    RemoveAllAppended(refs, rid);
    assert table[rid := r] - {rid} == table;
  }

  /** Pulling an id a list does not hold leaves the list as it is. */
  lemma {:induction false} RemoveAllAbsent(refs: seq<Id>, x: Id)
    requires x !in refs
    ensures RemoveAll(refs, x) == refs
    decreases |refs|
  {
    if refs != [] {
      RemoveAllAbsent(refs[1..], x);
    }
  }

  /**
   * The ratings of the referenced reviews that exist in the review table,
   * in list order; dangling references are skipped.
   */
  function Ratings(refs: seq<Id>, table: map<Id, ReviewModel.Review>): (r: seq<real>)
    ensures |r| <= |refs|
    decreases |refs|
  {
    if refs == [] then []
    else (if refs[0] in table then [table[refs[0]].rating] else []) + Ratings(refs[1..], table)
  }

  /** The documents `Review.find({ _id: { $in: refs } })` returns, by id: each existing one once. */
  ghost function Found(refs: seq<Id>, table: map<Id, ReviewModel.Review>): set<Id>
  {
    set y | y in refs && y in table
  }

  /**
   * On a list without duplicates, reading one rating per reference finds as
   * many ratings as `$in` finds documents: one per distinct existing id.
   */
  lemma {:induction false} RatingsCountDocuments(refs: seq<Id>, table: map<Id, ReviewModel.Review>)
    requires NoDuplicates(refs)
    ensures |Ratings(refs, table)| == |Found(refs, table)|
    decreases |refs|
  {
    if refs != [] {
      var h, t := refs[0], refs[1..];
      assert refs == [h] + t;
      assert multiset(refs) == multiset{h} + multiset(t);
      assert NoDuplicates(t) by {
        forall y ensures multiset(t)[y] <= 1 {
          assert multiset(t)[y] <= multiset(refs)[y];
        }
      }
      assert h !in t by {
        assert multiset(refs)[h] == 1 + multiset(t)[h];
      }
      RatingsCountDocuments(t, table);
      assert Ratings(refs, table) == (if h in table then [table[h].rating] else []) + Ratings(t, table);
      if h in table {
        assert Found(refs, table) == Found(t, table) + {h};
        assert h !in Found(t, table);
      } else {
        assert Ratings(refs, table) == Ratings(t, table);
        assert Found(refs, table) == Found(t, table);
      }
    }
  }

  /** A reference appended at the end contributes its rating last, if the review exists. */
  lemma {:induction false} RatingsAppend(refs: seq<Id>, x: Id, table: map<Id, ReviewModel.Review>)
    ensures Ratings(refs + [x], table) == Ratings(refs, table) + (if x in table then [table[x].rating] else [])
    decreases |refs|
  {
    if refs == [] {
      assert Ratings([x], table) == (if x in table then [table[x].rating] else []) + Ratings([], table);
    } else {
      var h, t := refs[0], refs[1..];
      var last := if x in table then [table[x].rating] else [];
      var first := if h in table then [table[h].rating] else [];
      assert (refs + [x])[0] == h;
      assert (refs + [x])[1..] == t + [x];
      RatingsAppend(t, x, table);
      calc {
        Ratings(refs + [x], table);
        first + Ratings(t + [x], table);
        first + (Ratings(t, table) + last);
        (first + Ratings(t, table)) + last;
        Ratings(refs, table) + last;
      }
    }
  }

  /**
   * Storing a review under a fresh id and appending that id adds exactly
   * its rating, after the ratings read before.
   */
  lemma RatingsAfterAdd(refs: seq<Id>, table: map<Id, ReviewModel.Review>, rid: Id, r: ReviewModel.Review)
    requires rid !in refs
    ensures Ratings(refs + [rid], table[rid := r]) == Ratings(refs, table) + [r.rating]
  {
    RatingsAgree(refs, table, table[rid := r]);
    RatingsAppend(refs, rid, table[rid := r]);
  }

  /** Two review tables that agree on the referenced ids give the same ratings. */
  lemma {:induction false} RatingsAgree(refs: seq<Id>, t1: map<Id, ReviewModel.Review>, t2: map<Id, ReviewModel.Review>)
    requires forall y :: y in refs ==> (y in t1 <==> y in t2)
    requires forall y :: y in refs && y in t1 && y in t2 ==> t1[y].rating == t2[y].rating
    ensures Ratings(refs, t1) == Ratings(refs, t2)
    decreases |refs|
  {
    if refs != [] {
      RatingsAgree(refs[1..], t1, t2);
    }
  }

  /** When every review in the table is valid, every rating read is within 1..5. */
  lemma {:induction false} RatingsValid(refs: seq<Id>, table: map<Id, ReviewModel.Review>)
    requires forall y :: y in table ==> ReviewModel.Valid(table[y])
    ensures Rating.Within(Ratings(refs, table), 1.0, 5.0)
    decreases |refs|
  {
    if refs != [] {
      RatingsValid(refs[1..], table);
    }
  }

  /**
   * Once review x is deleted from the table, pulling x from the list no
   * longer changes the ratings read: the aggregate after a removal does not
   * depend on whether the reference was pulled.
   */
  lemma {:induction false} RatingsAfterPull(refs: seq<Id>, x: Id, table: map<Id, ReviewModel.Review>)
    ensures Ratings(RemoveAll(refs, x), table - {x}) == Ratings(refs, table - {x})
    decreases |refs|
  {
    if refs != [] {
      RatingsAfterPull(refs[1..], x, table);
      var pulled := RemoveAll(refs[1..], x);
      if refs[0] != x {
        assert RemoveAll(refs, x) == [refs[0]] + pulled;
        assert ([refs[0]] + pulled)[1..] == pulled;
      } else {
        assert RemoveAll(refs, x) == pulled;
        assert Ratings(refs, table - {x}) == Ratings(refs[1..], table - {x});
      }
    }
  }
}

/** Callback order: by order, and by registration where the order is equal. */
module TransactionOrder {
  import opened TransactionModel

  predicate Less(hooks: seq<Hook>, i: nat, j: nat)
    requires i < |hooks| && j < |hooks|
  {
    hooks[i].order < hooks[j].order || (hooks[i].order == hooks[j].order && i < j)
  }

  predicate Indices(hooks: seq<Hook>, s: seq<nat>) {
    forall i | 0 <= i < |s| :: s[i] < |hooks|
  }

  ghost predicate StrictlyOrdered(hooks: seq<Hook>, s: seq<nat>)
    requires Indices(hooks, s)
  {
    forall i, j | 0 <= i < j < |s| :: Less(hooks, s[i], s[j])
  }

  lemma {:induction false} InsertKeepsMembers(hooks: seq<Hook>, s: seq<nat>, index: nat, k: nat)
    requires index < |hooks| && Indices(hooks, s)
    ensures k in InsertByOrder(hooks, s, index) <==> k in s || k == index
  {
    if s != [] && hooks[s[|s| - 1]].order > hooks[index].order {
      InsertKeepsMembers(hooks, s[..|s| - 1], index, k);
      assert s == s[..|s| - 1] + [s[|s| - 1]];
    }
  }

  lemma {:induction false} InsertKeepsOrder(hooks: seq<Hook>, s: seq<nat>, index: nat)
    requires index < |hooks| && Indices(hooks, s) && StrictlyOrdered(hooks, s)
    requires forall i | 0 <= i < |s| :: s[i] < index
    ensures StrictlyOrdered(hooks, InsertByOrder(hooks, s, index))
  {
    if s != [] && hooks[s[|s| - 1]].order > hooks[index].order {
      var front := s[..|s| - 1];
      InsertKeepsOrder(hooks, front, index);
      var r := InsertByOrder(hooks, front, index);
      forall i | 0 <= i < |r| ensures Less(hooks, r[i], s[|s| - 1]) {
        assert r[i] in r;
        InsertKeepsMembers(hooks, front, index, r[i]);
        if r[i] in front {
          var j :| 0 <= j < |front| && front[j] == r[i];
          assert s[j] == r[i];
        }
      }
    }
  }

  predicate InPhase(hooks: seq<Hook>, phase: Phase, k: nat) {
    k < |hooks| && hooks[k].phase == phase
  }

  lemma {:induction false} OrderedUpToMembers(hooks: seq<Hook>, phase: Phase, n: nat, k: nat)
    requires n <= |hooks|
    ensures k in OrderedUpTo(hooks, phase, n) <==> k < n && InPhase(hooks, phase, k)
  {
    if n > 0 {
      OrderedUpToMembers(hooks, phase, n - 1, k);
      if hooks[n - 1].phase == phase {
        InsertKeepsMembers(hooks, OrderedUpTo(hooks, phase, n - 1), n - 1, k);
      }
    }
  }

  lemma {:induction false} OrderedUpToIsOrdered(hooks: seq<Hook>, phase: Phase, n: nat)
    requires n <= |hooks|
    ensures StrictlyOrdered(hooks, OrderedUpTo(hooks, phase, n))
  {
    if n > 0 {
      OrderedUpToIsOrdered(hooks, phase, n - 1);
      var rest := OrderedUpTo(hooks, phase, n - 1);
      if hooks[n - 1].phase == phase {
        forall i | 0 <= i < |rest| ensures rest[i] < n - 1 {
          assert rest[i] in rest;
          OrderedUpToMembers(hooks, phase, n - 1, rest[i]);
        }
        InsertKeepsOrder(hooks, rest, n - 1);
      }
    }
  }

  /**
   The drain order of a phase: exactly the hooks registered for it, each once,
   by ascending order and then by registration.
   */
  lemma OrderedIsOrdered(hooks: seq<Hook>, phase: Phase)
    ensures StrictlyOrdered(hooks, Ordered(hooks, phase))
    ensures forall k: nat :: k in Ordered(hooks, phase) <==> InPhase(hooks, phase, k)
    ensures forall i, j | 0 <= i < j < |Ordered(hooks, phase)| :: Ordered(hooks, phase)[i] != Ordered(hooks, phase)[j]
  {
    OrderedUpToIsOrdered(hooks, phase, |hooks|);
    forall k: nat ensures k in Ordered(hooks, phase) <==> InPhase(hooks, phase, k) {
      OrderedUpToMembers(hooks, phase, |hooks|, k);
    }
  }

  /** A strictly ordered list is determined by its elements. */
  lemma {:induction false} OrderIsUnique(hooks: seq<Hook>, s: seq<nat>, t: seq<nat>)
    requires Indices(hooks, s) && Indices(hooks, t) && StrictlyOrdered(hooks, s) && StrictlyOrdered(hooks, t)
    requires forall k: nat :: k in s <==> k in t
    ensures s == t
  {
    if t != [] {
      assert t[0] in t && t[0] in s;
    }
    if s != [] {
      SameHead(hooks, s, t);
      forall k: nat ensures k in s[1..] <==> k in t[1..] {
        TailMembers(hooks, s, k);
        TailMembers(hooks, t, k);
      }
      OrderIsUnique(hooks, s[1..], t[1..]);
      assert s == [s[0]] + s[1..] && t == [t[0]] + t[1..];
    }
  }

  /** The first element is the least one. */
  lemma SameHead(hooks: seq<Hook>, s: seq<nat>, t: seq<nat>)
    requires Indices(hooks, s) && Indices(hooks, t) && StrictlyOrdered(hooks, s) && StrictlyOrdered(hooks, t)
    requires s != [] && forall k: nat :: k in s <==> k in t
    ensures t != [] && s[0] == t[0]
  {
    assert s[0] in s;
    assert t[0] in t;
    HeadIsLeast(hooks, s, t[0]);
    HeadIsLeast(hooks, t, s[0]);
  }

  lemma HeadIsLeast(hooks: seq<Hook>, s: seq<nat>, k: nat)
    requires Indices(hooks, s) && StrictlyOrdered(hooks, s) && k in s
    ensures k < |hooks| && (k == s[0] || Less(hooks, s[0], k))
  {
    var i :| 0 <= i < |s| && s[i] == k;
  }

  lemma TailMembers(hooks: seq<Hook>, s: seq<nat>, k: nat)
    requires s != [] && Indices(hooks, s) && StrictlyOrdered(hooks, s)
    ensures k in s[1..] <==> k in s && k != s[0]
  {
    assert s == [s[0]] + s[1..];
    if k in s[1..] {
      var i :| 0 <= i < |s[1..]| && s[1..][i] == k;
      assert Less(hooks, s[0], s[i + 1]);
    }
  }
}

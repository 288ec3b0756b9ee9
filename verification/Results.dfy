/** Decoded results grouped by the monitor they belong to, and multisets of filtered sequences. */
module Results {
  import opened Domain

  /** The results of one monitor, in order. */
  function Select(results: seq<Decoded>, id: nat): seq<Decoded> {
    if results == [] then []
    else
      var last := results[|results| - 1];
      Select(results[..|results| - 1], id) + (if last.monitor == id then [last] else [])
  }

  lemma {:induction false} SelectConcat(a: seq<Decoded>, b: seq<Decoded>, id: nat)
    ensures Select(a + b, id) == Select(a, id) + Select(b, id)
    decreases |b|
  {
    if b == [] {
      assert a + b == a;
    } else {
      var init := b[..|b| - 1];
      SelectConcat(a, init, id);
      assert (a + b)[..|a + b| - 1] == a + init;
    }
  }

  lemma {:induction false} SelectNone(results: seq<Decoded>, id: nat)
    requires forall r :: r in results ==> r.monitor != id
    ensures Select(results, id) == []
  {
    if results == [] {
    } else {
      SelectNone(results[..|results| - 1], id);
    }
  }

  lemma {:induction false} SelectAll(results: seq<Decoded>, id: nat)
    requires forall r :: r in results ==> r.monitor == id
    ensures Select(results, id) == results
  {
    if results == [] {
    } else {
      var init, last := results[..|results| - 1], results[|results| - 1];
      assert results == init + [last] && last in results;
      SelectAll(init, id);
    }
  }

  lemma {:induction false} SelectMember(results: seq<Decoded>, id: nat, r: Decoded)
    ensures r in Select(results, id) <==> r in results && r.monitor == id
  {
    if results == [] {
    } else {
      SelectMember(results[..|results| - 1], id, r);
    }
  }

  /** What `f` gives for each element, joined. */
  function Gather<A>(s: seq<A>, f: A -> seq<Decoded>): seq<Decoded> {
    if s == [] then [] else Gather(s[..|s| - 1], f) + f(s[|s| - 1])
  }

  lemma {:induction false} GatherConcat<A>(a: seq<A>, b: seq<A>, f: A -> seq<Decoded>)
    ensures Gather(a + b, f) == Gather(a, f) + Gather(b, f)
    decreases |b|
  {
    if b == [] {
      assert a + b == a;
    } else {
      var init := b[..|b| - 1];
      GatherConcat(a, init, f);
      assert (a + b)[..|a + b| - 1] == a + init;
    }
  }

  lemma GatherRemove<A>(t: seq<A>, k: nat, f: A -> seq<Decoded>)
    requires k < |t|
    ensures multiset(Gather(t, f)) == multiset(Gather(t[..k] + t[k + 1..], f)) + multiset(f(t[k]))
  {
    var front, back := t[..k], t[k + 1..];
    assert t == front + ([t[k]] + back);
    GatherConcat(front, [t[k]] + back, f);
    GatherConcat([t[k]], back, f);
    GatherConcat(front, back, f);
    assert Gather([t[k]], f) == Gather([t[k]][..0], f) + f(t[k]) == f(t[k]);
  }

  lemma {:induction false} GatherMultiset<A>(s: seq<A>, t: seq<A>, f: A -> seq<Decoded>)
    requires multiset(s) == multiset(t)
    ensures multiset(Gather(s, f)) == multiset(Gather(t, f))
    decreases |s|
  {
    if s == [] {
      assert |multiset(t)| == |multiset(s)|;
    } else {
      var last := s[|s| - 1];
      assert last in multiset(s);
      var k :| 0 <= k < |t| && t[k] == last;
      var init, rest := s[..|s| - 1], t[..k] + t[k + 1..];
      assert s == init + [last];
      assert t == t[..k] + [last] + t[k + 1..];
      assert multiset(s) == multiset(init) + multiset{last};
      assert multiset(t) == multiset(rest) + multiset{last};
      assert multiset(init) == multiset(s) - multiset{last} == multiset(rest);
      GatherMultiset(init, rest, f);
      GatherRemove(t, k, f);
    }
  }

  function Keep<A>(s: seq<A>, p: A -> bool): seq<A> {
    if s == [] then []
    else Keep(s[..|s| - 1], p) + (if p(s[|s| - 1]) then [s[|s| - 1]] else [])
  }

  lemma {:induction false} KeepMembers<A(!new)>(s: seq<A>, p: A -> bool)
    ensures forall x :: x in Keep(s, p) <==> x in s && p(x)
  {
    if s == [] {
    } else {
      KeepMembers(s[..|s| - 1], p);
      assert s == s[..|s| - 1] + [s[|s| - 1]];
    }
  }

  /** Dropping elements `f` gives nothing for does not change what is gathered. */
  lemma {:induction false} GatherKeep<A(!new)>(s: seq<A>, p: A -> bool, f: A -> seq<Decoded>)
    requires forall x :: x in s && !p(x) ==> f(x) == []
    ensures Gather(Keep(s, p), f) == Gather(s, f)
  {
    if s == [] {
    } else {
      var init := s[..|s| - 1];
      GatherKeep(init, p, f);
      assert s[|s| - 1] in s;
      if p(s[|s| - 1]) {
        assert Keep(s, p)[..|Keep(s, p)| - 1] == Keep(init, p);
      } else {
        assert Keep(s, p) == Keep(init, p);
      }
    }
  }

  lemma {:induction false} GatherSame<A(!new)>(s: seq<A>, f: A -> seq<Decoded>, g: A -> seq<Decoded>)
    requires forall x :: x in s ==> f(x) == g(x)
    ensures Gather(s, f) == Gather(s, g)
  {
    if s == [] {
    } else {
      GatherSame(s[..|s| - 1], f, g);
    }
  }

  lemma {:induction false} KeepMultiset<A(!new)>(s: seq<A>, p: A -> bool, x: A)
    ensures multiset(Keep(s, p))[x] == if p(x) then multiset(s)[x] else 0
  {
    if s == [] {
    } else {
      var init := s[..|s| - 1];
      KeepMultiset(init, p, x);
      assert s == init + [s[|s| - 1]];
    }
  }
}

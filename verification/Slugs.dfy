/** The search for a tenant's free slug: base, base-1, base-2, and so on. */
module Slugs {
  import opened Decimal

  function Candidate(base: string, k: nat): string {
    if k == 0 then base else base + "-" + Dec(k)
  }

  lemma CandidatesDistinct(base: string, i: nat, j: nat)
    requires i != j
    ensures Candidate(base, i) != Candidate(base, j)
  {
    if i > 0 && j > 0 && Candidate(base, i) == Candidate(base, j) {
      assert Candidate(base, i)[|base| + 1..] == Dec(i);
      assert Candidate(base, j)[|base| + 1..] == Dec(j);
      DecInjective(i, j);
    }
  }

  /** The first k candidates. */
  function Probed(base: string, k: nat): set<string> {
    if k == 0 then {} else Probed(base, k - 1) + {Candidate(base, k - 1)}
  }

  lemma {:induction false} LaterIsNew(base: string, k: nat, n: nat)
    requires k <= n
    ensures Candidate(base, n) !in Probed(base, k)
  {
    if k > 0 {
      LaterIsNew(base, k - 1, n);
      CandidatesDistinct(base, n, k - 1);
    }
  }

  lemma {:induction false} ProbedSize(base: string, k: nat)
    ensures |Probed(base, k)| == k
  {
    if k > 0 {
      ProbedSize(base, k - 1);
      LaterIsNew(base, k - 1, k - 1);
    }
  }

  ghost predicate AllTaken(base: string, taken: set<string>, k: nat) {
    forall j: nat :: j < k ==> Candidate(base, j) in taken
  }

  lemma {:induction false} ProbedAreTaken(base: string, taken: set<string>, k: nat)
    requires AllTaken(base, taken, k)
    ensures Probed(base, k) <= taken
  {
    if k > 0 {
      ProbedAreTaken(base, taken, k - 1);
    }
  }

  /** Pairwise distinct candidates cannot all be taken for longer than there are slugs. */
  lemma Pigeonhole(base: string, taken: set<string>, k: nat)
    requires AllTaken(base, taken, k)
    ensures k <= |taken|
  {
    ProbedAreTaken(base, taken, k);
    ProbedSize(base, k);
    SubsetSize(Probed(base, k), taken);
  }

  lemma SubsetSize(a: set<string>, b: set<string>)
    requires a <= b
    ensures |a| <= |b|
  {
    assert b == a + (b - a);
    assert |b| == |a| + |b - a|;
  }

  ghost predicate FirstFree(base: string, taken: set<string>, k: nat) {
    AllTaken(base, taken, k) && Candidate(base, k) !in taken
  }

  /** The search ends on the first free candidate after at most |taken| + 1 lookups. */
  method FindSlug(base: string, taken: set<string>) returns (slug: string)
    ensures slug !in taken
    ensures exists k: nat :: k <= |taken| && FirstFree(base, taken, k) && slug == Candidate(base, k)
    ensures slug == base || exists k: nat :: k > 0 && slug == base + "-" + Dec(k)
  {
    slug := base;
    var counter := 1;
    while slug in taken
      invariant counter >= 1 && slug == Candidate(base, counter - 1)
      invariant AllTaken(base, taken, counter - 1)
      invariant counter - 1 <= |taken|
      decreases |taken| - counter
    {
      Pigeonhole(base, taken, counter);
      slug := base + "-" + Dec(counter);
      counter := counter + 1;
    }
    assert FirstFree(base, taken, counter - 1);
    assert counter > 1 ==> slug == base + "-" + Dec(counter - 1);
  }

  lemma FirstFreeIsUnique(base: string, taken: set<string>, i: nat, j: nat)
    requires FirstFree(base, taken, i)
    ensures FirstFree(base, taken, j) <==> i == j
  {
    assert AllTaken(base, taken, j) && i < j ==> Candidate(base, i) in taken;
  }

  /** Tenants created one after another under one name get the candidates in order: once the first
      n are taken, and nothing else, the search returns the next one. */
  lemma {:induction false} NamesakesAreNumbered(base: string, n: nat)
    ensures FirstFree(base, Probed(base, n), n)
  {
    LaterIsNew(base, n, n);
    forall j: nat | j < n
      ensures Candidate(base, j) in Probed(base, n)
    {
      EarlierIsProbed(base, n, j);
    }
  }

  lemma {:induction false} EarlierIsProbed(base: string, n: nat, j: nat)
    requires j < n
    ensures Candidate(base, j) in Probed(base, n)
  {
    if j < n - 1 {
      EarlierIsProbed(base, n - 1, j);
    }
  }
}

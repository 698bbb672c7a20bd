/** FAQ entries, their similarity scores and the ranking that picks the best
    one: the score map, the in-place stable sort by decreasing similarity, and
    the reference definition of the entry the sort puts first. */
module FaqRanking {

  /** An embedding vector; its numbers come from the embedding provider. */
  type Vector = seq<real>

  /** A question/answer pair supplied with the request. */
  datatype Faq = Faq(question: string, answer: string)

  /** A FAQ with the embedding of its question. */
  datatype EmbeddedFaq = EmbeddedFaq(question: string, answer: string, embedding: Vector)

  /** A FAQ with its similarity to the user's question. */
  datatype ScoredFaq = ScoredFaq(question: string, answer: string, embedding: Vector, similarity: real)

  /** The score map: every cached FAQ, in order, with the similarity the
      oracle gives between the query embedding and the FAQ's embedding. */
  function Score(list: seq<EmbeddedFaq>, query: Vector, similarity: (Vector, Vector) -> real)
    : (scored: seq<ScoredFaq>)
    ensures |scored| == |list|
    ensures forall i :: 0 <= i < |list| ==>
              scored[i].question == list[i].question && scored[i].answer == list[i].answer &&
              scored[i].embedding == list[i].embedding &&
              scored[i].similarity == similarity(query, list[i].embedding)
  {
    seq(|list|, i requires 0 <= i < |list| =>
      ScoredFaq(list[i].question, list[i].answer, list[i].embedding, similarity(query, list[i].embedding)))
  }

  /** Reference definition of the best entry: the index of the first entry
      (in list order) whose similarity is maximal. */
  function FirstBest(s: seq<ScoredFaq>): (k: nat)
    requires |s| > 0
    ensures k < |s|
    ensures forall i :: 0 <= i < |s| ==> s[i].similarity <= s[k].similarity
    ensures forall i :: 0 <= i < k ==> s[i].similarity < s[k].similarity
  {
    if |s| == 1 then 0
    else
      var k := FirstBest(s[1..]);
      assert forall i :: 1 <= i < |s| ==> s[i] == s[1..][i - 1];
      if s[0].similarity >= s[k + 1].similarity then 0 else k + 1
  }

  /** The order the sort produces on entries tagged with their original
      positions: higher similarity first, and on equal similarity the entry
      that came first before sorting stays first (the sort is stable). */
  predicate Precedes(x: ScoredFaq, i: int, y: ScoredFaq, j: int) {
    x.similarity > y.similarity || (x.similarity == y.similarity && i < j)
  }

  /** `0, 1, ..., n - 1`. */
  function Positions(n: nat): (r: seq<nat>)
    ensures |r| == n && forall i :: 0 <= i < n ==> r[i] == i
  {
    seq(n, i requires 0 <= i => i)
  }

  /** `s` is `orig` rearranged by the permutation `perm`: entry `k` of `s`
      was entry `perm[k]` of `orig`. */
  ghost predicate Rearranged(orig: seq<ScoredFaq>, s: seq<ScoredFaq>, perm: seq<nat>) {
    |s| == |orig| == |perm| &&
    multiset(perm) == multiset(Positions(|orig|)) &&
    forall k :: 0 <= k < |s| ==> perm[k] < |orig| && s[k] == orig[perm[k]]
  }

  /** The first `n` entries of `s` are in `Precedes` order. */
  ghost predicate OrderedUpTo(s: seq<ScoredFaq>, perm: seq<nat>, n: nat)
    requires n <= |s| == |perm|
  {
    forall k, l :: 0 <= k < l < n ==> Precedes(s[k], perm[k], s[l], perm[l])
  }

  /** `sorted` is `orig` rearranged into `Precedes` order. */
  ghost predicate StablySorted(orig: seq<ScoredFaq>, sorted: seq<ScoredFaq>, perm: seq<nat>) {
    Rearranged(orig, sorted, perm) && OrderedUpTo(sorted, perm, |sorted|)
  }

  /** `faqsWithSimilarity.sort((a, b) => b.similarity - a.similarity)`: a
      stable in-place sort by decreasing similarity (insertion sort). */
  method SortBySimilarity(a: array<ScoredFaq>) returns (ghost perm: seq<nat>)
    modifies a
    ensures StablySorted(old(a[..]), a[..], perm)
  {
    ghost var orig := a[..];
    perm := Positions(a.Length);
    var i := 0;
    while i < a.Length
      invariant 0 <= i <= a.Length
      invariant Rearranged(orig, a[..], perm)
      invariant forall k :: i <= k < a.Length ==> perm[k] == k
      invariant forall k :: 0 <= k < i ==> perm[k] < i
      invariant OrderedUpTo(a[..], perm, i)
    {
      perm := InsertLast(a, i, orig, perm);
      i := i + 1;
    }
  }

  /** While an entry moves left from position `i` it sits at `j`: the other
      entries of `s[..i + 1]` are in `Precedes` order, the moving entry
      precedes every entry to its right, and it came from position `i`. */
  ghost predicate Inserting(s: seq<ScoredFaq>, perm: seq<nat>, i: nat, j: nat)
    requires j <= i < |s| == |perm|
  {
    perm[j] == i &&
    (forall k :: 0 <= k <= i && k != j ==> perm[k] < i) &&
    (forall k, l :: 0 <= k < l <= i && k != j && l != j ==> Precedes(s[k], perm[k], s[l], perm[l])) &&
    (forall l :: j < l <= i ==> Precedes(s[j], perm[j], s[l], perm[l]))
  }

  /** The entry at `i` starts where it is, behind the ordered prefix. */
  lemma InsertingStart(s: seq<ScoredFaq>, perm: seq<nat>, i: nat)
    requires i < |s| == |perm|
    requires perm[i] == i && forall k :: 0 <= k < i ==> perm[k] < i
    requires OrderedUpTo(s, perm, i)
    ensures Inserting(s, perm, i, i)
  {
  }

  /** Moving the entry one place left past a strictly less similar entry keeps
      `Inserting`. */
  lemma InsertingStep(s: seq<ScoredFaq>, perm: seq<nat>, i: nat, j: nat)
    requires 0 < j <= i < |s| == |perm|
    requires Inserting(s, perm, i, j)
    requires s[j - 1].similarity < s[j].similarity
    ensures Inserting(s[j - 1 := s[j]][j := s[j - 1]], perm[j - 1 := perm[j]][j := perm[j - 1]], i, j - 1)
  {
  }

  /** Once the entry stops (at the front, or behind an entry at least as
      similar), the first `i + 1` entries are in `Precedes` order. */
  lemma InsertingDone(s: seq<ScoredFaq>, perm: seq<nat>, i: nat, j: nat)
    requires j <= i < |s| == |perm|
    requires Inserting(s, perm, i, j)
    requires j == 0 || s[j - 1].similarity >= s[j].similarity
    ensures OrderedUpTo(s, perm, i + 1)
  {
    if j > 0 {
      assert Precedes(s[j - 1], perm[j - 1], s[j], perm[j]);
      forall k | 0 <= k < j - 1 ensures Precedes(s[k], perm[k], s[j], perm[j]) {
        assert Precedes(s[k], perm[k], s[j - 1], perm[j - 1]);
      }
    }
  }

  /** One step of the sort: the entry at `i` moves left past the entries of
      strictly smaller similarity, so an entry never overtakes one of equal
      similarity. */
  method InsertLast(a: array<ScoredFaq>, i: nat, ghost orig: seq<ScoredFaq>, ghost perm0: seq<nat>)
    returns (ghost perm: seq<nat>)
    requires i < a.Length
    requires Rearranged(orig, a[..], perm0)
    requires forall k :: i <= k < a.Length ==> perm0[k] == k
    requires forall k :: 0 <= k < i ==> perm0[k] < i
    requires OrderedUpTo(a[..], perm0, i)
    modifies a
    ensures Rearranged(orig, a[..], perm)
    ensures forall k :: i < k < a.Length ==> perm[k] == k
    ensures forall k :: 0 <= k <= i ==> perm[k] <= i
    ensures OrderedUpTo(a[..], perm, i + 1)
  {
    perm := perm0;
    var j := i;
    InsertingStart(a[..], perm, i);
    while 0 < j && a[j - 1].similarity < a[j].similarity
      invariant 0 <= j <= i
      invariant Rearranged(orig, a[..], perm)
      invariant forall k :: i < k < a.Length ==> perm[k] == k
      invariant Inserting(a[..], perm, i, j)
    {
      InsertingStep(a[..], perm, i, j);
      Swap(a, j - 1, orig, perm);
      perm := perm[j - 1 := perm[j]][j := perm[j - 1]];
      j := j - 1;
    }
    InsertingDone(a[..], perm, i, j);
  }

  /** Exchanges two neighbouring entries, keeping `a` a rearrangement of
      `orig` under the correspondingly exchanged permutation. */
  method Swap(a: array<ScoredFaq>, j: nat, ghost orig: seq<ScoredFaq>, ghost perm: seq<nat>)
    requires j + 1 < a.Length
    requires Rearranged(orig, a[..], perm)
    modifies a
    ensures a[..] == old(a[..])[j := old(a[j + 1])][j + 1 := old(a[j])]
    ensures Rearranged(orig, a[..], perm[j := perm[j + 1]][j + 1 := perm[j]])
  {
    a[j], a[j + 1] := a[j + 1], a[j];
    ghost var p := perm[j := perm[j + 1]][j + 1 := perm[j]];
    assert multiset(p) == multiset(perm);
    assert forall k :: 0 <= k < a.Length ==> a[k] == orig[p[k]];
  }

  /** The entry the sort puts first is the reference best entry: the first
      entry of maximal similarity in the original order. */
  lemma {:induction false} SortedHeadIsFirstBest(orig: seq<ScoredFaq>, sorted: seq<ScoredFaq>, perm: seq<nat>)
    requires StablySorted(orig, sorted, perm)
    requires |orig| > 0
    ensures sorted[0] == orig[FirstBest(orig)]
    ensures forall i :: 0 <= i < |sorted| ==> sorted[i].similarity <= sorted[0].similarity
  {
    var m := FirstBest(orig);
    assert Positions(|orig|)[m] == m;
    assert m in multiset(perm);
    var l :| 0 <= l < |perm| && perm[l] == m;
    forall j | 0 < j < |perm| ensures perm[j] != m {
      assert Precedes(sorted[0], perm[0], sorted[j], perm[j]);
    }
    forall i | 0 <= i < |sorted| ensures sorted[i].similarity <= sorted[0].similarity {
      assert sorted[i] == orig[perm[i]];
    }
  }
}

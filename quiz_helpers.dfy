/**
 * Question selection of utils/quizHelpers.ts: a Fisher-Yates shuffle of a
 * copy of the array, then the first `count` questions of the shuffled copy.
 * `Math.random()` is an input: the value drawn in the iteration for index
 * `i` is `randoms[i]`, a real in [0, 1). The shuffle is specified over the
 * indices these values select.
 */
module QuizHelpers {

  /** types/quiz.ts */
  datatype Question = Question(id: int, question: string, options: seq<string>, correctAnswer: int, category: string)

  /** What `Math.random()` may return. */
  predicate AreRandoms(randoms: seq<real>) {
    forall k :: 0 <= k < |randoms| ==> 0.0 <= randoms[k] < 1.0
  }

  /** `Math.floor(r * (i + 1))`: an index between 0 and `i`. */
  function RandomIndex(r: real, i: nat): (j: nat)
    requires 0.0 <= r < 1.0
    ensures j <= i
  {
    var k := (i + 1) as real;
    var x := r * k;
    ProductBounds(r, k);
    x.Floor
  }

  lemma ProductBounds(r: real, k: real)
    requires 0.0 <= r < 1.0 && k > 0.0
    ensures 0.0 <= r * k < k
  {
    assert (1.0 - r) * k > 0.0;
  }

  /** Index `k` of a sequence of draws is one of 0 to `k`. */
  predicate AreDraws(picks: seq<nat>) {
    forall k :: 0 <= k < |picks| ==> picks[k] <= k
  }

  /** The index that each iteration picks from its random value. */
  function Draws(randoms: seq<real>): (picks: seq<nat>)
    requires AreRandoms(randoms)
    ensures |picks| == |randoms| && AreDraws(picks)
    ensures forall k :: 0 <= k < |randoms| ==> picks[k] == RandomIndex(randoms[k], k)
  {
    seq(|randoms|, k requires 0 <= k < |randoms| => RandomIndex(randoms[k], k))
  }

  /** `[s[i], s[j]] = [s[j], s[i]]` */
  function Swap<T>(s: seq<T>, i: nat, j: nat): (t: seq<T>)
    requires i < |s| && j < |s|
    ensures |t| == |s| && multiset(t) == multiset(s)
  {
    var t := s[i := s[j]][j := s[i]];
    assert t == s[i := s[j]][j := s[i]];
    t
  }

  /**
   * The loop's result as a function: the iteration for the last index swaps
   * it with a drawn position and leaves it alone from then on, and the
   * remaining iterations shuffle the prefix before it.
   */
  function Shuffled<T>(s: seq<T>, picks: seq<nat>): (t: seq<T>)
    requires |s| <= |picks| && AreDraws(picks)
    ensures |t| == |s|
    decreases |s|
  {
    if |s| <= 1 then s
    else
      var i := |s| - 1;
      var t := Swap(s, i, picks[i]);
      Shuffled(t[..i], picks) + [t[i]]
  }

  /** The shuffle returns a permutation of its input. */
  lemma {:induction false} ShuffledIsPermutation<T>(s: seq<T>, picks: seq<nat>)
    requires |s| <= |picks| && AreDraws(picks)
    ensures multiset(Shuffled(s, picks)) == multiset(s)
    decreases |s|
  {
    if |s| > 1 {
      var i := |s| - 1;
      var t := Swap(s, i, picks[i]);
      var rest := Shuffled(t[..i], picks);
      assert Shuffled(s, picks) == rest + [t[i]];
      ShuffledIsPermutation(t[..i], picks);
      assert t == t[..i] + [t[i]];
      calc {
        multiset(Shuffled(s, picks));
        multiset(rest) + multiset{t[i]};
        multiset(t[..i]) + multiset{t[i]};
        multiset(t);
      }
    }
  }

  /** Arrays of length 0 or 1 come back as they were: the loop never runs. */
  lemma ShortArraysUnchanged<T>(s: seq<T>, picks: seq<nat>)
    requires |s| <= 1 && |s| <= |picks| && AreDraws(picks)
    ensures Shuffled(s, picks) == s
  {
  }

  /**
   * The loop's invariant: shuffling what is left of `cur` up to index `i`
   * and keeping the positions after `i` gives the shuffle of the original.
   */
  ghost predicate ShuffleInvariant<T>(cur: seq<T>, original: seq<T>, picks: seq<nat>, i: int) {
    && |cur| == |original| <= |picks| && AreDraws(picks)
    && -1 <= i < |cur|
    && Shuffled(cur[..i + 1], picks) + cur[i + 1..] == Shuffled(original, picks)
  }

  /** One iteration of the loop: the swap at `i` moves the done part down by one. */
  lemma ShuffleStep<T>(before: seq<T>, original: seq<T>, picks: seq<nat>, i: nat)
    requires 0 < i < |before| == |original| <= |picks| && AreDraws(picks)
    requires ShuffleInvariant(before, original, picks, i)
    ensures ShuffleInvariant(Swap(before, i, picks[i]), original, picks, i - 1)
  {
    var j := picks[i];
    var after := Swap(before, i, j);
    var prefix := before[..i + 1];
    assert Swap(prefix, i, j) == after[..i + 1];
    assert after[..i + 1][..i] == after[..i];
    assert after[i..] == [after[i]] + after[i + 1..];
    assert before[i + 1..] == after[i + 1..];
  }

  /** Before the loop nothing is done. */
  lemma ShuffleStart<T>(s: seq<T>, picks: seq<nat>)
    requires |s| <= |picks| && AreDraws(picks)
    ensures ShuffleInvariant(s, s, picks, |s| - 1)
  {
    assert s[..|s|] == s && s[|s|..] == [];
  }

  /** When `i` reaches 0 or -1 everything is done. */
  lemma ShuffleDone<T>(cur: seq<T>, original: seq<T>, picks: seq<nat>, i: int)
    requires ShuffleInvariant(cur, original, picks, i) && i <= 0
    ensures cur == Shuffled(original, picks)
  {
    assert cur == cur[..i + 1] + cur[i + 1..];
  }

  /** The destructuring swap `[a[i], a[j]] = [a[j], a[i]]` in place. */
  method SwapElements<T>(a: array<T>, i: nat, j: nat)
    requires i < a.Length && j < a.Length
    modifies a
    ensures a[..] == Swap(old(a[..]), i, j)
  {
    a[i], a[j] := a[j], a[i];
  }

  /** One iteration of the loop: draw `j` from `0..i` and swap positions `i` and `j`. */
  method ShuffleIteration<T>(a: array<T>, randoms: seq<real>, i: nat, ghost original: seq<T>)
    requires 0 < i && a.Length <= |randoms| && AreRandoms(randoms)
    requires ShuffleInvariant(a[..], original, Draws(randoms), i)
    modifies a
    ensures ShuffleInvariant(a[..], original, Draws(randoms), i - 1)
  {
    var j := RandomIndex(randoms[i], i);
    ghost var before := a[..];
    SwapElements(a, i, j);
    ShuffleStep(before, original, Draws(randoms), i);
  }

  /** The `for` loop of `shuffleArray`, run on the array it is given. */
  method ShuffleInPlace<T>(a: array<T>, randoms: seq<real>)
    requires a.Length <= |randoms| && AreRandoms(randoms)
    modifies a
    ensures a[..] == Shuffled(old(a[..]), Draws(randoms))
  {
    ghost var original := a[..];
    ShuffleStart(original, Draws(randoms));
    var i: int := a.Length - 1;
    while i > 0
      invariant ShuffleInvariant(a[..], original, Draws(randoms), i)
    {
      ShuffleIteration(a, randoms, i, original);
      i := i - 1;
    }
    ShuffleDone(a[..], original, Draws(randoms), i);
  }

  /** `shuffleArray`: Fisher-Yates on a fresh copy; the input is only read. */
  method ShuffleArray<T>(items: array<T>, randoms: seq<real>) returns (shuffled: array<T>)
    requires items.Length <= |randoms| && AreRandoms(randoms)
    ensures fresh(shuffled)
    ensures shuffled[..] == Shuffled(items[..], Draws(randoms))
    ensures multiset(shuffled[..]) == multiset(items[..])
  {
    var n := items.Length;
    shuffled := new T[n](k requires 0 <= k < n reads items => items[k]);
    assert shuffled[..] == items[..];
    ShuffleInPlace(shuffled, randoms);
    ShuffledIsPermutation(items[..], Draws(randoms));
  }

  /** `slice(0, end)` on an array of length `n`: where the slice ends. */
  function SliceEnd(n: nat, end: int): (e: nat)
    ensures e <= n
  {
    if end < 0 then (if n + end > 0 then n + end else 0)
    else if end < n then end else n
  }

  /**
   * `a.slice(0, end)`: a fresh array holding a prefix, `min(end, n)` long for
   * a non-negative `end`; a negative `end` counts from the back and leaves
   * out that many elements, or all of them.
   */
  method Slice<T>(a: array<T>, end: int) returns (r: array<T>)
    ensures fresh(r)
    ensures r[..] == a[..SliceEnd(a.Length, end)]
    ensures end >= 0 ==> r.Length == if end < a.Length then end else a.Length
    ensures end < 0 ==> r.Length == if a.Length + end > 0 then a.Length + end else 0
  {
    var e := SliceEnd(a.Length, end);
    r := new T[e](k requires 0 <= k < e reads a => a[k]);
  }

  lemma PrefixWithin<T>(t: seq<T>, e: nat)
    requires e <= |t|
    ensures multiset(t[..e]) <= multiset(t)
  {
    assert t == t[..e] + t[e..];
  }

  /** A prefix of a permutation of `s` takes no element more often than `s` has it. */
  lemma SelectionWithinInput<T>(s: seq<T>, picks: seq<nat>, e: nat)
    requires |s| <= |picks| && AreDraws(picks)
    requires e <= |s|
    ensures multiset(Shuffled(s, picks)[..e]) <= multiset(s)
    ensures forall q :: q in Shuffled(s, picks)[..e] ==> q in s
  {
    var t := Shuffled(s, picks);
    ShuffledIsPermutation(s, picks);
    PrefixWithin(t, e);
    forall q | q in t[..e]
      ensures q in s
    {
      assert q in multiset(t[..e]);
      assert q in multiset(s);
    }
  }

  /**
   * `getRandomQuestions`: the first `count` questions of a shuffled copy,
   * `count` being 5 unless given. A non-negative `count` yields
   * `min(count, n)` questions.
   */
  method GetRandomQuestions(allQuestions: array<Question>, randoms: seq<real>, count: int := 5)
    returns (selected: array<Question>)
    requires allQuestions.Length <= |randoms| && AreRandoms(randoms)
    ensures fresh(selected)
    ensures selected[..] == Shuffled(allQuestions[..], Draws(randoms))[..SliceEnd(allQuestions.Length, count)]
    ensures count >= 0 ==> selected.Length == if count < allQuestions.Length then count else allQuestions.Length
    ensures count < 0 ==> selected.Length == if allQuestions.Length + count > 0 then allQuestions.Length + count else 0
    ensures multiset(selected[..]) <= multiset(allQuestions[..])
    ensures forall q :: q in selected[..] ==> q in allQuestions[..]
  {
    var shuffled := ShuffleArray(allQuestions, randoms);
    selected := Slice(shuffled, count);
    SelectionWithinInput(allQuestions[..], Draws(randoms), SliceEnd(allQuestions.Length, count));
  }
}

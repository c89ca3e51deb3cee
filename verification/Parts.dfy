/** One sequence with some elements left out of another. */
module Parts {
  /** a[i] is b[at[i]], in increasing order: a is b with some elements left out. */
  ghost predicate Embeds<T(!new)>(a: seq<T>, b: seq<T>, at: seq<nat>) {
    && |at| == |a|
    && (forall i :: 0 <= i < |at| ==> at[i] < |b| && b[at[i]] == a[i])
    && (forall i, j :: 0 <= i < j < |at| ==> at[i] < at[j])
  }

  ghost predicate PartOf<T(!new)>(a: seq<T>, b: seq<T>) { exists at :: Embeds(a, b, at) }

  lemma PrefixIsPart<T(!new)>(a: seq<T>, b: seq<T>)
    requires a <= b
    ensures PartOf(a, b)
  {
    assert Embeds(a, b, seq(|a|, i => i));
  }

  lemma PartsConcat<T(!new)>(a: seq<T>, b: seq<T>, c: seq<T>, d: seq<T>)
    requires PartOf(a, b) && PartOf(c, d)
    ensures PartOf(a + c, b + d)
  {
    var f :| Embeds(a, b, f);
    var g :| Embeds(c, d, g);
    assert Embeds(a + c, b + d, f + seq(|g|, i requires 0 <= i < |g| => |b| + g[i]));
  }

  lemma PartOfSameLength<T(!new)>(a: seq<T>, b: seq<T>)
    requires PartOf(a, b) && |a| == |b|
    ensures a == b
  {
    var at :| Embeds(a, b, at);
    forall i | 0 <= i < |a| ensures a[i] == b[i] { AtLeast(at, i); AtMost(at, i, |b|); }
  }

  lemma {:induction false} AtLeast(at: seq<nat>, i: nat)
    requires i < |at| && forall j, k :: 0 <= j < k < |at| ==> at[j] < at[k]
    ensures at[i] >= i
    decreases i
  {
    if i > 0 { AtLeast(at, i - 1); assert at[i - 1] < at[i]; }
  }

  lemma {:induction false} AtMost(at: seq<nat>, i: nat, n: nat)
    requires i < |at| == n
    requires forall j, k :: 0 <= j < k < |at| ==> at[j] < at[k]
    requires forall j :: 0 <= j < |at| ==> at[j] < n
    ensures at[i] <= i
    decreases n - i
  {
    if i < n - 1 { AtMost(at, i + 1, n); assert at[i] < at[i + 1]; }
  }

  lemma PartIsNoLonger<T(!new)>(a: seq<T>, b: seq<T>)
    requires PartOf(a, b)
    ensures |a| <= |b|
  {
    var at :| Embeds(a, b, at);
    if |a| > 0 { AtLeast(at, |a| - 1); }
  }

  lemma PartOfLonger<T(!new)>(a: seq<T>, b: seq<T>, c: seq<T>)
    requires PartOf(a, b) && b <= c
    ensures PartOf(a, c)
  {
    var at :| Embeds(a, b, at);
    assert Embeds(a, c, at);
  }
}

/** The search-history list of the home screen: the most recent queries,
    most recent first, without duplicates, at most five of them. */
module SearchHistory {

  /** How many entries the history keeps (the `slice(0, 5)`). */
  const MaxEntries := 5

  /** The history with every occurrence of `q` removed, in the original
      order (`searchHistory.filter(item => item !== q)`). */
  function Without(h: seq<string>, q: string): (r: seq<string>)
    ensures |r| <= |h|
    ensures forall x :: x in r <==> x in h && x != q
    ensures forall x :: x != q ==> multiset(r)[x] == multiset(h)[x]
  {
    if h == [] then []
    else
      assert h == [h[0]] + h[1..];
      if h[0] == q then Without(h[1..], q)
      else [h[0]] + Without(h[1..], q)
  }

  /** Recording a query: it goes to the front, its older occurrence is
      dropped, and the list is cut to `MaxEntries`. */
  function Record(h: seq<string>, q: string): (r: seq<string>)
    ensures 1 <= |r| <= MaxEntries
    ensures r[0] == q && q !in r[1..]
    ensures forall x :: x in r ==> x == q || x in h
    ensures |h| < MaxEntries ==> forall x :: x in h ==> x in r
    // a full list drops its oldest entries: the newest others survive, in order
    ensures var others := Without(h, q);
            && |r| == (if |others| + 1 < MaxEntries then |others| + 1 else MaxEntries)
            && r[1..] == others[..|r| - 1]
  {
    var others := Without(h, q);
    var updated := [q] + others;
    if |updated| <= MaxEntries then updated
    else
      assert updated[..MaxEntries][1..] == others[..MaxEntries - 1];
      assert q !in others;
      updated[..MaxEntries]
  }

  /** No entry occurs twice. */
  ghost predicate Distinct(h: seq<string>)
  {
    forall i, j :: 0 <= i < j < |h| ==> h[i] != h[j]
  }

  /** `a` is `b` with some entries deleted, the rest in the same order. */
  ghost predicate IsSubsequence(a: seq<string>, b: seq<string>)
    decreases |b|
  {
    a == [] ||
    (b != [] &&
     ((a[0] == b[0] && IsSubsequence(a[1..], b[1..])) || IsSubsequence(a, b[1..])))
  }

  lemma {:induction false} WithoutIsSubsequence(h: seq<string>, q: string)
    ensures IsSubsequence(Without(h, q), h)
    decreases |h|
  {
    if h != [] {
      WithoutIsSubsequence(h[1..], q);
      if h[0] != q {
        var r := Without(h, q);
        assert r[0] == h[0] && r[1..] == Without(h[1..], q);
      }
    }
  }

  lemma {:induction false} PrefixIsSubsequence(a: seq<string>, b: seq<string>, k: nat)
    requires IsSubsequence(a, b) && k <= |a|
    ensures IsSubsequence(a[..k], b)
    decreases |b|
  {
    if k > 0 {
      if a[0] == b[0] && IsSubsequence(a[1..], b[1..]) {
        PrefixIsSubsequence(a[1..], b[1..], k - 1);
        assert a[..k][1..] == a[1..][..k - 1];
      } else {
        PrefixIsSubsequence(a, b[1..], k);
      }
    }
  }

  /** Recording keeps the other entries in their relative order. */
  lemma RecordKeepsOrder(h: seq<string>, q: string)
    ensures IsSubsequence(Record(h, q)[1..], h)
  {
    var w := Without(h, q);
    WithoutIsSubsequence(h, q);
    var r := Record(h, q);
    var k := |r| - 1;
    assert r[1..] == w[..k];
    PrefixIsSubsequence(w, h, k);
  }

  lemma {:induction false} WithoutKeepsDistinct(h: seq<string>, q: string)
    requires Distinct(h)
    ensures Distinct(Without(h, q))
    decreases |h|
  {
    if h != [] {
      assert Distinct(h[1..]) by {
        forall i, j | 0 <= i < j < |h[1..]| ensures h[1..][i] != h[1..][j] {
          assert h[1..][i] == h[i + 1] && h[1..][j] == h[j + 1];
        }
      }
      WithoutKeepsDistinct(h[1..], q);
      if h[0] != q {
        var rest := Without(h[1..], q);
        assert h[0] !in rest;
        var r := [h[0]] + rest;
        forall i, j | 0 <= i < j < |r| ensures r[i] != r[j] {
          if i == 0 {
            assert r[j] == rest[j - 1];
          } else {
            assert r[i] == rest[i - 1] && r[j] == rest[j - 1];
          }
        }
      }
    }
  }

  /** Recording preserves "no duplicates". */
  lemma RecordKeepsDistinct(h: seq<string>, q: string)
    requires Distinct(h)
    ensures Distinct(Record(h, q))
  {
    var w := Without(h, q);
    WithoutKeepsDistinct(h, q);
    var r := Record(h, q);
    forall i, j | 0 <= i < j < |r| ensures r[i] != r[j] {
      if i == 0 {
        assert r[j] in r[1..];
      } else {
        assert r[i] == w[i - 1] && r[j] == w[j - 1];
      }
    }
  }

  lemma {:induction false} WithoutAbsent(h: seq<string>, q: string)
    requires q !in h
    ensures Without(h, q) == h
    decreases |h|
  {
    if h != [] {
      WithoutAbsent(h[1..], q);
      assert h == [h[0]] + h[1..];
    }
  }

  /** Recording the same query twice is the same as recording it once. */
  lemma RecordIdempotent(h: seq<string>, q: string)
    ensures Record(Record(h, q), q) == Record(h, q)
  {
    var r := Record(h, q);
    WithoutAbsent(r[1..], q);
    assert Without(r, q) == Without(r[1..], q);
    assert [q] + r[1..] == r;
  }

  /** A query recorded any number of times in a row occurs once, at the front. */
  lemma {:induction false} RecordRepeatedly(h: seq<string>, q: string, n: nat)
    requires n >= 1
    ensures RecordTimes(h, q, n) == Record(h, q)
    ensures var r := RecordTimes(h, q, n); r[0] == q && q !in r[1..]
  {
    if n > 1 {
      RecordRepeatedly(h, q, n - 1);
      RecordIdempotent(h, q);
    }
  }

  /** `q` recorded `n` times in a row. */
  function RecordTimes(h: seq<string>, q: string, n: nat): seq<string>
  {
    if n == 0 then h else Record(RecordTimes(h, q, n - 1), q)
  }

  /** Moving an entry already present to the front. */
  lemma RecordExample()
    ensures Record(["a", "b", "c"], "b") == ["b", "a", "c"]
  {
  }

  /** A new query on a full list pushes out the oldest entry. */
  lemma RecordFullExample()
    ensures Record(["a", "b", "c", "d", "e"], "z") == ["z", "a", "b", "c", "d"]
  {
  }
}

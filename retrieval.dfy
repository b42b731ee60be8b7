/**
 * Retrieved documents with their scores, and the stable ascending sort by score
 * (`list.sort(key=lambda x: x[1])`) the knowledge-base agent applies to them.
 * Scores are only compared, so they are reals here.
 */
module Retrieval {
  import opened Replies

  /** A retrieved document: its text and its metadata dict. */
  datatype Doc = Doc(pageContent: string, metadata: Metadata)

  /** A `(doc, score)` pair; a smaller score means a closer match. */
  datatype Hit = Hit(doc: Doc, score: real)

  ghost predicate SortedByScore(s: seq<Hit>) {
    forall i, j | 0 <= i < j < |s| :: s[i].score <= s[j].score
  }

  /** Puts `h` in front of the first element whose score is not smaller. */
  function Insert(h: Hit, s: seq<Hit>): (r: seq<Hit>)
    ensures multiset(r) == multiset(s) + multiset{h}
  {
    if s == [] || h.score <= s[0].score then [h] + s
    else
      assert s == [s[0]] + s[1..];
      [s[0]] + Insert(h, s[1..])
  }

  lemma PrependSorted(x: Hit, t: seq<Hit>)
    requires SortedByScore(t)
    requires forall y | y in t :: x.score <= y.score
    ensures SortedByScore([x] + t)
  {
    var r := [x] + t;
    forall i, j | 0 <= i < j < |r| ensures r[i].score <= r[j].score {
      if i > 0 {
        assert r[i] == t[i - 1] && r[j] == t[j - 1];
      } else {
        assert r[j] in t;
      }
    }
  }

  lemma {:induction false} InsertSorted(h: Hit, s: seq<Hit>)
    requires SortedByScore(s)
    ensures SortedByScore(Insert(h, s))
  {
    if s == [] || h.score <= s[0].score {
      PrependSorted(h, s);
    } else {
      var rest := Insert(h, s[1..]);
      assert SortedByScore(s[1..]) by {
        forall i, j | 0 <= i < j < |s[1..]| ensures s[1..][i].score <= s[1..][j].score {
          assert s[1..][i] == s[i + 1] && s[1..][j] == s[j + 1];
        }
      }
      InsertSorted(h, s[1..]);
      forall y | y in rest ensures s[0].score <= y.score {
        assert y in multiset(rest);
        if y != h {
          assert y in multiset(s[1..]);
          var k :| 0 <= k < |s[1..]| && s[1..][k] == y;
          assert s[k + 1] == y;
        }
      }
      PrependSorted(s[0], rest);
    }
  }

  /** The hits ordered by ascending score; hits with equal scores keep their order. */
  function SortByScore(s: seq<Hit>): (r: seq<Hit>)
    ensures SortedByScore(r)
    ensures multiset(r) == multiset(s)
  {
    if s == [] then []
    else
      assert s == [s[0]] + s[1..];
      var sortedRest := SortByScore(s[1..]);
      InsertSorted(s[0], sortedRest);
      Insert(s[0], sortedRest)
  }

  /** The hits of `s` whose score is `v`, in order. */
  function WithScore(s: seq<Hit>, v: real): seq<Hit> {
    if s == [] then []
    else (if s[0].score == v then [s[0]] else []) + WithScore(s[1..], v)
  }

  lemma {:induction false} InsertKeepsTies(h: Hit, s: seq<Hit>, v: real)
    ensures WithScore(Insert(h, s), v) == WithScore([h], v) + WithScore(s, v)
  {
    if s == [] || h.score <= s[0].score {
      assert ([h] + s)[1..] == s;
    } else {
      var r := Insert(h, s);
      assert r[0] == s[0] && r[1..] == Insert(h, s[1..]);
      InsertKeepsTies(h, s[1..], v);
    }
  }

  /** Stability: for every score, the hits with that score appear in the sorted list in their original order. */
  lemma {:induction false} SortIsStable(s: seq<Hit>, v: real)
    ensures WithScore(SortByScore(s), v) == WithScore(s, v)
  {
    if s != [] {
      SortIsStable(s[1..], v);
      InsertKeepsTies(s[0], SortByScore(s[1..]), v);
    }
  }

  /** The first sorted hit has the smallest score of all, and it is one of the hits. */
  lemma SortedHeadIsMinimum(s: seq<Hit>)
    requires s != []
    ensures SortByScore(s) != [] && SortByScore(s)[0] in s
    ensures forall h | h in s :: SortByScore(s)[0].score <= h.score
  {
    var r := SortByScore(s);
    assert s[0] in multiset(r);
    assert r[0] in multiset(s);
    forall h | h in s ensures r[0].score <= h.score {
      assert h in multiset(r);
      var k :| 0 <= k < |r| && r[k] == h;
    }
  }
}

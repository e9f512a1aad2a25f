/** The two MongoDB array operators the wishlist handlers use, on a sequence of product ids. */
module Wishlist {

  /** A product reference as the wishlist stores it (an ObjectId string). */
  type ProductId = string

  /** No element occurs twice: the set discipline the wishlist keeps. */
  predicate NoDups(s: seq<ProductId>)
  {
    forall i, j :: 0 <= i < j < |s| ==> s[i] != s[j]
  }

  /** `$addToSet`: append `x` unless it is already an element. */
  function AddToSet(s: seq<ProductId>, x: ProductId): (r: seq<ProductId>)
    ensures forall y :: y in r <==> y in s || y == x
    ensures |s| <= |r| <= |s| + 1 && r[..|s|] == s
    ensures x in s ==> r == s
    ensures x !in s ==> r == s + [x]
  {
    if x in s then s else s + [x]
  }

  /** `$pull` with a plain value: drop every element equal to `x`, keep the rest in order. */
  function Pull(s: seq<ProductId>, x: ProductId): (r: seq<ProductId>)
    ensures forall y :: y in r <==> y in s && y != x
    ensures multiset(r) == multiset(s)[x := 0]
    ensures x !in s ==> r == s
  {
    if s == [] then []
    else
      assert s == [s[0]] + s[1..];
      if s[0] == x then Pull(s[1..], x) else [s[0]] + Pull(s[1..], x)
  }

  /** Adding an id that is already there changes nothing: `$addToSet` is idempotent. */
  lemma AddToSetIdempotent(s: seq<ProductId>, x: ProductId)
    ensures AddToSet(AddToSet(s, x), x) == AddToSet(s, x)
  {
  }

  /** `$addToSet` never creates a duplicate. */
  lemma AddToSetKeepsNoDups(s: seq<ProductId>, x: ProductId)
    requires NoDups(s)
    ensures NoDups(AddToSet(s, x))
  {
  }

  /** The tail of a list without duplicates has none, and does not hold the head. */
  lemma NoDupsTail(s: seq<ProductId>)
    requires NoDups(s) && s != []
    ensures NoDups(s[1..]) && s[0] !in s[1..]
  {
    forall i, j | 0 <= i < j < |s[1..]| ensures s[1..][i] != s[1..][j] {
      assert s[1..][i] == s[i + 1] && s[1..][j] == s[j + 1];
    }
    forall k | 0 <= k < |s[1..]| ensures s[1..][k] != s[0] {
      assert s[1..][k] == s[k + 1];
    }
  }

  /** Putting an element that is not there in front of a list without duplicates keeps it without duplicates. */
  lemma ConsKeepsNoDups(x: ProductId, t: seq<ProductId>)
    requires NoDups(t) && x !in t
    ensures NoDups([x] + t)
  {
    var r := [x] + t;
    forall i, j | 0 <= i < j < |r| ensures r[i] != r[j] {
      assert r[j] == t[j - 1];
      if i > 0 {
        assert r[i] == t[i - 1];
      }
    }
  }

  /** `$pull` never creates a duplicate. */
  lemma {:induction false} PullKeepsNoDups(s: seq<ProductId>, x: ProductId)
    requires NoDups(s)
    ensures NoDups(Pull(s, x))
  {
    if s != [] {
      NoDupsTail(s);
      PullKeepsNoDups(s[1..], x);
      if s[0] != x {
        ConsKeepsNoDups(s[0], Pull(s[1..], x));
      }
    }
  }

  /** Removing twice is removing once. */
  lemma PullIdempotent(s: seq<ProductId>, x: ProductId)
    ensures Pull(Pull(s, x), x) == Pull(s, x)
  {
  }

  /** `$pull` distributes over concatenation. */
  lemma {:induction false} PullAppend(a: seq<ProductId>, b: seq<ProductId>, x: ProductId)
    ensures Pull(a + b, x) == Pull(a, x) + Pull(b, x)
  {
    if a == [] {
      assert a + b == b;
    } else {
      var ab := a + b;
      assert ab[0] == a[0] && ab[1..] == a[1..] + b;
      PullAppend(a[1..], b, x);
      if a[0] == x {
        calc {
          Pull(ab, x);
          Pull(a[1..] + b, x);
          Pull(a[1..], x) + Pull(b, x);
          Pull(a, x) + Pull(b, x);
        }
      } else {
        calc {
          Pull(ab, x);
          [a[0]] + Pull(a[1..] + b, x);
          [a[0]] + (Pull(a[1..], x) + Pull(b, x));
          ([a[0]] + Pull(a[1..], x)) + Pull(b, x);
          Pull(a, x) + Pull(b, x);
        }
      }
    }
  }

  /** Removing an id after adding it leaves the list as if only the removal had happened. */
  lemma {:induction false} PullAfterAdd(s: seq<ProductId>, x: ProductId)
    ensures Pull(AddToSet(s, x), x) == Pull(s, x)
  {
    if x !in s {
      PullAppend(s, [x], x);
      assert Pull([x], x) == [];
    }
  }

  /** Two adds and one remove of the same id, from an empty list, leave it empty; after the adds it holds the id once. */
  lemma AddTwiceRemoveOnce(x: ProductId)
    ensures AddToSet(AddToSet([], x), x) == [x]
    ensures Pull(AddToSet(AddToSet([], x), x), x) == []
  {
  }

  /** In a list without duplicates, an element occurs exactly once. */
  lemma {:induction false} NoDupsCountsOne(s: seq<ProductId>, x: ProductId)
    requires NoDups(s) && x in s
    ensures multiset(s)[x] == 1
  {
    assert s == [s[0]] + s[1..];
    NoDupsTail(s);
    if s[0] != x {
      NoDupsCountsOne(s[1..], x);
    }
  }
}

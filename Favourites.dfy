/** The favourites of one user: a list of product ids in which each id is meant to appear once. */
module Favourites {
  import opened Domain

  predicate NoDuplicates(favs: seq<ProductId>) {
    forall i, j :: 0 <= i < j < |favs| ==> favs[i] != favs[j]
  }

  /** The list after `addToFavorites(p)`: `p` is pushed only when `favourites.includes(p)` is false. */
  function WithFavourite(favs: seq<ProductId>, p: ProductId): (r: seq<ProductId>)
    ensures forall x :: x in r <==> x in favs || x == p
    ensures |r| <= |favs| + 1
  {
    if p in favs then favs else favs + [p]
  }

  /** The list after `removeFromFavorites(p)`: `favourites.filter(fav => !fav.equals(p))`. */
  function Without(favs: seq<ProductId>, p: ProductId): (r: seq<ProductId>)
    ensures forall x :: x in r <==> x in favs && x != p
    ensures |r| <= |favs|
  {
    if favs == [] then []
    else (if favs[0] == p then [] else [favs[0]]) + Without(favs[1..], p)
  }

  /** Adding twice gives the same list as adding once. */
  lemma AddIdempotent(favs: seq<ProductId>, p: ProductId)
    ensures WithFavourite(WithFavourite(favs, p), p) == WithFavourite(favs, p)
  {
    assert p in WithFavourite(favs, p);
  }

  /** Add keeps every id unique. */
  lemma AddKeepsNoDuplicates(favs: seq<ProductId>, p: ProductId)
    requires NoDuplicates(favs)
    ensures NoDuplicates(WithFavourite(favs, p))
  {
    var r := WithFavourite(favs, p);
    if p !in favs {
      forall i, j | 0 <= i < j < |r| ensures r[i] != r[j] {
        if j == |favs| { assert r[i] == favs[i]; }
      }
    }
  }

  /** Remove drops every occurrence of `p` and keeps every other id as often as it was there. */
  lemma {:induction false} WithoutCounts(favs: seq<ProductId>, p: ProductId, x: ProductId)
    ensures multiset(Without(favs, p))[x] == if x == p then 0 else multiset(favs)[x]
  {
    if favs != [] {
      WithoutCounts(favs[1..], p, x);
      assert favs == [favs[0]] + favs[1..];
    }
  }

  /** Remove keeps the other ids in order: filtering a concatenation filters each part. */
  lemma {:induction false} WithoutConcat(a: seq<ProductId>, b: seq<ProductId>, p: ProductId)
    ensures Without(a + b, p) == Without(a, p) + Without(b, p)
  {
    if a != [] {
      WithoutConcat(a[1..], b, p);
      assert (a + b)[1..] == a[1..] + b;
    } else {
      assert a + b == b;
    }
  }

  /** Removing an id that is not there changes nothing. */
  lemma {:induction false} WithoutAbsent(favs: seq<ProductId>, p: ProductId)
    requires p !in favs
    ensures Without(favs, p) == favs
  {
    if favs != [] {
      WithoutAbsent(favs[1..], p);
      assert favs == [favs[0]] + favs[1..];
    }
  }

  /** Removing twice gives the same list as removing once. */
  lemma RemoveIdempotent(favs: seq<ProductId>, p: ProductId)
    ensures Without(Without(favs, p), p) == Without(favs, p)
  {
    WithoutAbsent(Without(favs, p), p);
  }

  /** Remove keeps every id unique. */
  lemma {:induction false} RemoveKeepsNoDuplicates(favs: seq<ProductId>, p: ProductId)
    requires NoDuplicates(favs)
    ensures NoDuplicates(Without(favs, p))
  {
    if favs != [] {
      RemoveKeepsNoDuplicates(favs[1..], p);
      assert favs[0] !in favs[1..];
    }
  }

  /** Removing after adding is removing: add leaves no trace once the id is removed again. */
  lemma RemoveAfterAdd(favs: seq<ProductId>, p: ProductId)
    ensures Without(WithFavourite(favs, p), p) == Without(favs, p)
  {
    if p !in favs {
      WithoutConcat(favs, [p], p);
      assert [p][1..] == [];
    }
  }
}

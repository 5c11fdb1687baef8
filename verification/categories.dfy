/**
  Product categories and the walk up their parent chain. A category holds its
  parent, if any, by value, so a parent chain is finite and free of cycles by
  construction: the walk from a category always reaches a root.
*/
module Categories {
  import opened Wrappers

  type CategoryId = int

  datatype Category = Category(id: CategoryId, parent: Option<Category>)

  /** The number of categories on the chain from `c` up to its root. */
  function Depth(c: Category): (d: nat)
    ensures d >= 1
  {
    match c.parent
    case None => 1
    case Some(p) => 1 + Depth(p)
  }

  /** The `k`-th category up the chain from `c`; the 0-th is `c` itself. */
  function Ancestor(c: Category, k: nat): Category
    requires k < Depth(c)
  {
    if k == 0 then c else Ancestor(c.parent.value, k - 1)
  }

  /** `a` is `c` or a category reached from `c` by following parents. */
  predicate IsAncestorOrSelf(a: Category, c: Category)
  {
    a == c || (c.parent.Some? && IsAncestorOrSelf(a, c.parent.value))
  }

  /** The ids the parent walk yields from one category: the category first,
      then each successive parent until there is none. */
  function Chain(c: Category): (r: seq<CategoryId>)
    ensures |r| == Depth(c)
    ensures forall k :: 0 <= k < |r| ==> r[k] == Ancestor(c, k).id
  {
    match c.parent
    case None => [c.id]
    case Some(p) => [c.id] + Chain(p)
  }

  /** The ids the parent walk yields from a sequence of categories, in order. */
  function Parents(cs: seq<Category>): (r: seq<CategoryId>)
    // every starting category is yielded, each with at least itself
    ensures |r| >= |cs|
    ensures forall i :: 0 <= i < |cs| ==> cs[i].id in r
  {
    if |cs| == 0 then [] else Chain(cs[0]) + Parents(cs[1..])
  }

  /** The walk from `c` starts at `c` itself and stops at a root. */
  lemma {:induction false} ChainOrder(c: Category)
    ensures Chain(c)[0] == c.id
    ensures Ancestor(c, Depth(c) - 1).parent.None?
  {
    match c.parent
    case None =>
    case Some(p) =>
      ChainOrder(p);
      assert Ancestor(c, Depth(c) - 1) == Ancestor(p, Depth(p) - 1);
  }

  /** Each step of the walk moves to the parent of the previous category. */
  lemma {:induction false} AncestorStep(c: Category, k: nat)
    requires k + 1 < Depth(c)
    ensures Ancestor(c, k).parent.Some?
    ensures Ancestor(c, k + 1) == Ancestor(c, k).parent.value
  {
    if k > 0 {
      AncestorStep(c.parent.value, k - 1);
    }
  }

  /** The ancestors-or-self of `c` are exactly the categories on its chain. */
  lemma {:induction false} AncestorOrSelfIsOnChain(a: Category, c: Category)
    ensures IsAncestorOrSelf(a, c) ==> exists k :: 0 <= k < Depth(c) && Ancestor(c, k) == a
    ensures (exists k :: 0 <= k < Depth(c) && Ancestor(c, k) == a) ==> IsAncestorOrSelf(a, c)
  {
    if IsAncestorOrSelf(a, c) {
      if a == c {
        assert 0 <= 0 < Depth(c) && Ancestor(c, 0) == a;
      } else {
        var p := c.parent.value;
        AncestorOrSelfIsOnChain(a, p);
        var k :| 0 <= k < Depth(p) && Ancestor(p, k) == a;
        assert 0 <= k + 1 < Depth(c) && Ancestor(c, k + 1) == a;
      }
      assert exists k :: 0 <= k < Depth(c) && Ancestor(c, k) == a;
    }
    if exists k :: 0 <= k < Depth(c) && Ancestor(c, k) == a {
      var k :| 0 <= k < Depth(c) && Ancestor(c, k) == a;
      if k > 0 {
        var p := c.parent.value;
        AncestorOrSelfIsOnChain(a, p);
        var j: nat := k - 1;
        assert Ancestor(c, k) == Ancestor(p, j);
        assert j < Depth(p) && Ancestor(p, j) == a;
        assert IsAncestorOrSelf(a, p);
      }
      assert IsAncestorOrSelf(a, c);
    }
  }

  /** An id is yielded by the walk from `c` exactly when it is the id of `c`
      or of one of its ancestors. */
  lemma {:induction false} ChainMembers(c: Category, x: CategoryId)
    ensures x in Chain(c) <==> exists a :: IsAncestorOrSelf(a, c) && a.id == x
  {
    match c.parent
    case None =>
      if x in Chain(c) {
        assert IsAncestorOrSelf(c, c);
      }
    case Some(p) =>
      ChainMembers(p, x);
      if x in Chain(c) {
        if x == c.id {
          assert IsAncestorOrSelf(c, c);
        } else {
          assert x in Chain(p);
          var a :| IsAncestorOrSelf(a, p) && a.id == x;
          assert IsAncestorOrSelf(a, c);
        }
      }
      if exists a :: IsAncestorOrSelf(a, c) && a.id == x {
        var a :| IsAncestorOrSelf(a, c) && a.id == x;
        if a != c {
          assert IsAncestorOrSelf(a, p);
          assert x in Chain(p);
        }
      }
  }

  /** An id is yielded by the walk over `cs` exactly when it is the id of one
      of the categories of `cs` or of one of their ancestors. */
  lemma {:induction false} ParentsMembers(cs: seq<Category>, x: CategoryId)
    ensures x in Parents(cs) <==>
      exists k, a :: 0 <= k < |cs| && IsAncestorOrSelf(a, cs[k]) && a.id == x
  {
    if |cs| > 0 {
      ParentsMembers(cs[1..], x);
      ChainMembers(cs[0], x);
      if x in Parents(cs) {
        if x in Chain(cs[0]) {
          var a :| IsAncestorOrSelf(a, cs[0]) && a.id == x;
          assert 0 <= 0 < |cs| && IsAncestorOrSelf(a, cs[0]) && a.id == x;
        } else {
          assert x in Parents(cs[1..]);
          var k, a :| 0 <= k < |cs[1..]| && IsAncestorOrSelf(a, cs[1..][k]) && a.id == x;
          assert 0 <= k + 1 < |cs| && IsAncestorOrSelf(a, cs[k + 1]) && a.id == x;
        }
      }
      if exists k, a :: 0 <= k < |cs| && IsAncestorOrSelf(a, cs[k]) && a.id == x {
        var k, a :| 0 <= k < |cs| && IsAncestorOrSelf(a, cs[k]) && a.id == x;
        if k > 0 {
          assert IsAncestorOrSelf(a, cs[1..][k - 1]);
          assert x in Parents(cs[1..]);
        } else {
          assert x in Chain(cs[0]);
        }
      }
    }
  }

  /** `ParentsMembers` for every id at once. */
  lemma ParentsMembersAll(cs: seq<Category>)
    ensures forall x :: x in Parents(cs) <==>
      exists k, a :: 0 <= k < |cs| && IsAncestorOrSelf(a, cs[k]) && a.id == x
  {
    forall x
      ensures x in Parents(cs) <==>
        exists k, a :: 0 <= k < |cs| && IsAncestorOrSelf(a, cs[k]) && a.id == x
    {
      ParentsMembers(cs, x);
    }
  }

  /** Following parents twice is following parents. */
  lemma {:induction false} AncestorTransitive(a: Category, b: Category, c: Category)
    requires IsAncestorOrSelf(a, b) && IsAncestorOrSelf(b, c)
    ensures IsAncestorOrSelf(a, c)
  {
    if b != c {
      AncestorTransitive(a, b, c.parent.value);
    }
  }
}

/** The camera group that draws every sprite of a level (`Sprites` in
    groups.py): a camera offset that places the target at the window centre,
    and a draw order sorted by depth with a stable sort. Drawing itself is
    represented by the list of (sprite, screen position) pairs it blits. */
module Groups {
  import opened Geometry
  import Settings

  /** What the group needs of a sprite: an identity, its rectangle and its depth. */
  datatype Drawable = Drawable(id: nat, rect: FRect, posZ: int)

  /** The offset that moves `target` to the window centre. */
  function CameraOffset(target: Vec): (offset: Vec)
    ensures target.Plus(offset) == Vec(Settings.WINDOW_WIDTH as real / 2.0, Settings.WINDOW_HEIGHT as real / 2.0)
  {
    Vec(-(target.x - Settings.WINDOW_WIDTH as real / 2.0), -(target.y - Settings.WINDOW_HEIGHT as real / 2.0))
  }

  ghost predicate SortedByDepth(s: seq<Drawable>)
  {
    forall i, j :: 0 <= i < j < |s| ==> s[i].posZ <= s[j].posZ
  }

  /** The elements of `s` at depth `z`, in their order in `s`. */
  function AtDepth(s: seq<Drawable>, z: int): seq<Drawable>
    decreases |s|
  {
    if s == [] then []
    else AtDepth(s[..|s| - 1], z) + (if s[|s| - 1].posZ == z then [s[|s| - 1]] else [])
  }

  /** Insert `d` into the depth-sorted `t` after every element whose depth is
      not greater than its own. */
  function Insert(t: seq<Drawable>, d: Drawable): (r: seq<Drawable>)
    ensures |r| == |t| + 1
    decreases |t|
  {
    if t == [] || t[|t| - 1].posZ <= d.posZ then t + [d]
    else Insert(t[..|t| - 1], d) + [t[|t| - 1]]
  }

  /** `sorted(group, key=pos_z)`: Python's stable sort by depth, here as an
      insertion sort taking the group's elements in iteration order. */
  function DepthSorted(s: seq<Drawable>): (r: seq<Drawable>)
    ensures |r| == |s|
    decreases |s|
  {
    if s == [] then [] else Insert(DepthSorted(s[..|s| - 1]), s[|s| - 1])
  }

  lemma {:induction false} AtDepthAppend(a: seq<Drawable>, b: seq<Drawable>, z: int)
    ensures AtDepth(a + b, z) == AtDepth(a, z) + AtDepth(b, z)
    decreases |b|
  {
    if b == [] {
      assert a + b == a;
    } else {
      assert (a + b)[..|a + b| - 1] == a + b[..|b| - 1];
      AtDepthAppend(a, b[..|b| - 1], z);
    }
  }

  lemma {:induction false} InsertKeepsElements(t: seq<Drawable>, d: Drawable)
    ensures multiset(Insert(t, d)) == multiset(t) + multiset{d}
    decreases |t|
  {
    if t == [] || t[|t| - 1].posZ <= d.posZ {
    } else {
      InsertKeepsElements(t[..|t| - 1], d);
      assert t == t[..|t| - 1] + [t[|t| - 1]];
    }
  }

  lemma {:induction false} InsertKeepsSorted(t: seq<Drawable>, d: Drawable)
    requires SortedByDepth(t)
    ensures SortedByDepth(Insert(t, d))
    decreases |t|
  {
    if t == [] || t[|t| - 1].posZ <= d.posZ {
    } else {
      var init, last := t[..|t| - 1], t[|t| - 1];
      InsertKeepsSorted(init, d);
      InsertKeepsElements(init, d);
      var u := Insert(init, d);
      forall x | x in u ensures x.posZ <= last.posZ {
        assert x in multiset(u);
        if x != d {
          assert x in multiset(init);
          var k :| 0 <= k < |init| && init[k] == x;
          assert t[k] == x;
        }
      }
      forall i, j | 0 <= i < j < |u| + 1 ensures (u + [last])[i].posZ <= (u + [last])[j].posZ {
        if j == |u| {
          assert u[i] in u;
        }
      }
    }
  }

  /** Inserting `d` adds it to the end of its own depth class and leaves the
      other depth classes as they were. */
  lemma {:induction false} InsertIsStable(t: seq<Drawable>, d: Drawable, z: int)
    ensures AtDepth(Insert(t, d), z) == AtDepth(t, z) + (if d.posZ == z then [d] else [])
    decreases |t|
  {
    if t == [] || t[|t| - 1].posZ <= d.posZ {
      AtDepthAppend(t, [d], z);
      assert [d][..0] == [];
    } else {
      var init, last := t[..|t| - 1], t[|t| - 1];
      InsertIsStable(init, d, z);
      AtDepthAppend(Insert(init, d), [last], z);
      assert [last][..0] == [];
      AtDepthAppend(init, [last], z);
      assert t == init + [last];
    }
  }

  /** The draw order holds exactly the group's sprites. */
  lemma {:induction false} DepthSortedIsPermutation(s: seq<Drawable>)
    ensures multiset(DepthSorted(s)) == multiset(s)
    decreases |s|
  {
    if s != [] {
      DepthSortedIsPermutation(s[..|s| - 1]);
      InsertKeepsElements(DepthSorted(s[..|s| - 1]), s[|s| - 1]);
      assert s == s[..|s| - 1] + [s[|s| - 1]];
    }
  }

  /** The draw order never goes back to a smaller depth. */
  lemma {:induction false} DepthSortedIsSorted(s: seq<Drawable>)
    ensures SortedByDepth(DepthSorted(s))
    decreases |s|
  {
    if s != [] {
      DepthSortedIsSorted(s[..|s| - 1]);
      InsertKeepsSorted(DepthSorted(s[..|s| - 1]), s[|s| - 1]);
    }
  }

  /** Sprites of equal depth are drawn in the group's iteration order. */
  lemma {:induction false} DepthSortedIsStable(s: seq<Drawable>, z: int)
    ensures AtDepth(DepthSorted(s), z) == AtDepth(s, z)
    decreases |s|
  {
    if s != [] {
      DepthSortedIsStable(s[..|s| - 1], z);
      InsertIsStable(DepthSorted(s[..|s| - 1]), s[|s| - 1], z);
    }
  }

  /** One blit: which sprite, and where on the screen. */
  datatype Blit = Blit(id: nat, at: Vec)

  class Sprites {
    /** The group's sprites, in iteration (insertion) order. */
    var members: seq<Drawable>
    var offset: Vec

    constructor ()
      ensures members == [] && offset == Vec(0.0, 0.0)
    {
      members := [];
      offset := Vec(0.0, 0.0);
    }

    /** `draw(target_pos)`: recentre the camera on `target`, then blit every
        sprite in depth order at its top-left corner shifted by the offset. */
    method Draw(target: Vec) returns (blits: seq<Blit>)
      modifies this`offset
      ensures offset == CameraOffset(target)
      ensures |blits| == |members|
      ensures forall i :: 0 <= i < |blits| ==>
        blits[i] == Blit(DepthSorted(members)[i].id, DepthSorted(members)[i].rect.TopLeft().Plus(offset))
    {
      offset := Vec(-(target.x - Settings.WINDOW_WIDTH as real / 2.0), -(target.y - Settings.WINDOW_HEIGHT as real / 2.0));
      var order := DepthSorted(members);
      blits := [];
      var i := 0;
      while i < |order|
        invariant 0 <= i <= |order|
        invariant |blits| == i
        invariant forall k :: 0 <= k < i ==> blits[k] == Blit(order[k].id, order[k].rect.TopLeft().Plus(offset))
      {
        blits := blits + [Blit(order[i].id, order[i].rect.TopLeft().Plus(offset))];
        i := i + 1;
      }
    }
  }
}

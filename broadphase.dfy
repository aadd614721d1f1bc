/**
 * Broad phase (`fill_collide_lists`): the sprites of the two groups that overlap the
 * player's rectangle, split into basic/moving tiles, ramps and semi-solid platforms.
 */
module Broadphase {
  import opened Geometry
  import opened World

  /** The three lists: basic and moving tiles, ramps, and semi-solid platforms whatever their tag. */
  datatype ListKind = BasicList | RampList | SemiList

  predicate Accepts(k: ListKind, t: Tag) {
    match k
    case BasicList => IsBasicKind(t)
    case RampList => IsRampKind(t)
    case SemiList => true
  }

  /** The sprites of `ss`, in order, that overlap `tar` and whose tag list `keep` accepts. */
  function Hits(ss: seq<Sprite>, tar: Rect, keep: ListKind): (r: seq<Sprite>)
    ensures |r| <= |ss|
    ensures forall s :: s in r ==> s in ss && Overlaps(s.rect, tar) && Accepts(keep, s.tag)
    decreases |ss|
  {
    if ss == [] then []
    else
      var prefix := Hits(ss[..|ss| - 1], tar, keep);
      var s := ss[|ss| - 1];
      if Overlaps(s.rect, tar) && Accepts(keep, s.tag) then prefix + [s] else prefix
  }

  /** Extending the group by one sprite extends the list by that sprite exactly when it is a hit. */
  lemma HitsSnoc(ss: seq<Sprite>, s: Sprite, tar: Rect, keep: ListKind)
    ensures Hits(ss + [s], tar, keep) == if Overlaps(s.rect, tar) && Accepts(keep, s.tag) then Hits(ss, tar, keep) + [s] else Hits(ss, tar, keep)
  {
    assert (ss + [s])[..|ss|] == ss;
  }

  /** Nothing that overlaps and has an accepted tag is missed. */
  lemma {:induction false} HitsMember(ss: seq<Sprite>, tar: Rect, keep: ListKind, s: Sprite)
    ensures s in Hits(ss, tar, keep) <==> s in ss && Overlaps(s.rect, tar) && Accepts(keep, s.tag)
    decreases |ss|
  {
    if ss != [] {
      var init := ss[..|ss| - 1];
      assert ss == init + [ss[|ss| - 1]];
      HitsMember(init, tar, keep, s);
    }
  }

  /** A group none of whose sprites overlaps the rectangle gives an empty list. */
  lemma {:induction false} HitsNoneOverlap(ss: seq<Sprite>, tar: Rect, keep: ListKind)
    requires forall i | 0 <= i < |ss| :: !Overlaps(ss[i].rect, tar)
    ensures Hits(ss, tar, keep) == []
    decreases |ss|
  {
    if ss != [] {
      HitsNoneOverlap(ss[..|ss| - 1], tar, keep);
    }
  }

  /**
   * Every sprite of the collision group goes into at most one list, and one with a tag
   * the core does not know goes into none.
   */
  lemma ListsSeparate(coll: seq<Sprite>, tar: Rect, s: Sprite)
    ensures !(s in Hits(coll, tar, BasicList) && s in Hits(coll, tar, RampList))
    ensures s.tag.OtherTag? ==> s !in Hits(coll, tar, BasicList) && s !in Hits(coll, tar, RampList)
  {
  }

  /** The lists keep the path data of moving sprites. */
  lemma {:induction false} HitsMotionTagged(ss: seq<Sprite>, tar: Rect, keep: ListKind)
    requires AllMotionTagged(ss)
    ensures AllMotionTagged(Hits(ss, tar, keep))
  {
    var r := Hits(ss, tar, keep);
    forall i | 0 <= i < |r| ensures MotionTagged(r[i]) {
      assert r[i] in r;
      var j :| 0 <= j < |ss| && ss[j] == r[i];
    }
  }
}

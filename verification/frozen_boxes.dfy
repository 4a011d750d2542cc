/**
 * The "frozen" boxes both workers set aside before running a module and append back
 * afterwards (gpu/gpu_image_processing_wrapper.py and
 * web/image_processing_view/image_processing_wrapper.py carry the same two loops), so
 * that no module can move, relabel or delete a box the user froze.
 */
module FrozenBoxes {
  import opened Wrappers

  /** A box of bounding_boxes.json; `frozen` is whether it has a "frozen" key. */
  datatype Box = Box(frozen: bool, top: int, left: int, width: int, height: int, clusterId: Option<int>)

  /** "documents": image name -> its boxes. */
  type Documents = map<string, seq<Box>>

  function Regular(bs: seq<Box>): (r: seq<Box>)
  {
    if bs == [] then []
    else if bs[0].frozen then Regular(bs[1..])
    else [bs[0]] + Regular(bs[1..])
  }

  function Frozen(bs: seq<Box>): (r: seq<Box>)
  {
    if bs == [] then []
    else if bs[0].frozen then [bs[0]] + Frozen(bs[1..])
    else Frozen(bs[1..])
  }

  /** Regular and Frozen as the loop builds them, appending one box at a time. */
  lemma {:induction false} PartitionSnoc(bs: seq<Box>, b: Box)
    ensures Regular(bs + [b]) == Regular(bs) + (if b.frozen then [] else [b])
    ensures Frozen(bs + [b]) == Frozen(bs) + (if b.frozen then [b] else [])
    decreases |bs|
  {
    if bs == [] {
      assert [] + [b] == [b];
    } else {
      assert (bs + [b])[0] == bs[0] && (bs + [b])[1..] == bs[1..] + [b];
      PartitionSnoc(bs[1..], b);
    }
  }

  /**
   * Every box goes to exactly one side, by its "frozen" key: the regular boxes are
   * all unfrozen, the frozen ones all frozen, and together they are the boxes.
   */
  lemma {:induction false} PartitionLosesNothing(bs: seq<Box>)
    ensures multiset(Regular(bs)) + multiset(Frozen(bs)) == multiset(bs)
    ensures |Regular(bs)| + |Frozen(bs)| == |bs|
    ensures forall b :: b in Regular(bs) ==> !b.frozen
    ensures forall b :: b in Frozen(bs) ==> b.frozen
    decreases |bs|
  {
    if bs != [] {
      PartitionLosesNothing(bs[1..]);
      assert bs == [bs[0]] + bs[1..];
    }
  }

  /** A partition changes nothing when there is nothing frozen, and restoring then gives the boxes back. */
  lemma {:induction false} NothingFrozen(bs: seq<Box>)
    requires forall i :: 0 <= i < |bs| ==> !bs[i].frozen
    ensures Regular(bs) == bs && Frozen(bs) == []
    decreases |bs|
  {
    if bs != [] {
      NothingFrozen(bs[1..]);
    }
  }

  /** Restoring after a module that left the boxes alone puts every frozen box at the end. */
  lemma {:induction false} RestoreMovesFrozenLast(bs: seq<Box>)
    ensures multiset(Regular(bs) + Frozen(bs)) == multiset(bs)
    ensures (forall i, j :: 0 <= i < j < |bs| ==> !(bs[i].frozen && !bs[j].frozen)) ==> Regular(bs) + Frozen(bs) == bs
    decreases |bs|
  {
    PartitionLosesNothing(bs);
    if bs != [] && forall i, j :: 0 <= i < j < |bs| ==> !(bs[i].frozen && !bs[j].frozen) {
      RestoreMovesFrozenLast(bs[1..]);
      if bs[0].frozen {
        AllFrozenAfter(bs);
      }
    }
  }

  lemma {:induction false} AllFrozenAfter(bs: seq<Box>)
    requires |bs| > 0 && bs[0].frozen
    requires forall i, j :: 0 <= i < j < |bs| ==> !(bs[i].frozen && !bs[j].frozen)
    ensures Regular(bs) == [] && Frozen(bs) == bs
    decreases |bs|
  {
    if |bs| > 1 {
      assert bs[1].frozen by { assert !(bs[0].frozen && !bs[1].frozen); }
      AllFrozenAfter(bs[1..]);
      assert bs == [bs[0]] + bs[1..];
    }
  }

  /** One image's boxes split into regular and frozen, in order. */
  method SplitBoxes(bs: seq<Box>) returns (regular: seq<Box>, frozen: seq<Box>)
    ensures regular == Regular(bs) && frozen == Frozen(bs)
  {
    regular, frozen := [], [];
    var j := 0;
    while j < |bs|
      invariant 0 <= j <= |bs|
      invariant regular == Regular(bs[..j]) && frozen == Frozen(bs[..j])
    {
      PartitionSnoc(bs[..j], bs[j]);
      assert bs[..j + 1] == bs[..j] + [bs[j]];
      if bs[j].frozen {
        frozen := frozen + [bs[j]];
      } else {
        regular := regular + [bs[j]];
      }
      j := j + 1;
    }
    assert bs[..j] == bs;
  }

  /** The documents with only their regular boxes. */
  function RegularOf(docs: Documents): Documents
  {
    map key | key in docs :: Regular(docs[key])
  }

  /** The frozen boxes set aside, per image (an image without any has an empty list). */
  function FrozenOf(docs: Documents): Documents
  {
    map key | key in docs :: Frozen(docs[key])
  }

  /** Each image's boxes with the boxes set aside for it appended. */
  function Restored(docs: Documents, frozen: Documents): Documents
  {
    map key | key in docs :: docs[key] + (if key in frozen then frozen[key] else [])
  }

  /**
   * Setting the frozen boxes aside and putting them back keeps every image and, per
   * image, exactly its boxes: the regular ones in their order, then the frozen ones in
   * theirs. A document without frozen boxes comes back unchanged.
   */
  lemma RestoreKeepsBoxes(docs: Documents, key: string)
    requires key in docs
    ensures Restored(RegularOf(docs), FrozenOf(docs)).Keys == docs.Keys
    ensures multiset(Restored(RegularOf(docs), FrozenOf(docs))[key]) == multiset(docs[key])
    ensures (forall i :: 0 <= i < |docs[key]| ==> !docs[key][i].frozen) ==>
              Restored(RegularOf(docs), FrozenOf(docs))[key] == docs[key]
  {
    PartitionLosesNothing(docs[key]);
    if forall i :: 0 <= i < |docs[key]| ==> !docs[key][i].frozen {
      NothingFrozen(docs[key]);
    }
  }

  /** The frozen boxes of every image set aside; the documents keep only their regular boxes. */
  method PartitionFrozen(docs: Documents) returns (regular: Documents, frozen: Documents)
    ensures regular == RegularOf(docs) && frozen == FrozenOf(docs)
  {
    regular, frozen := map[], map[];
    var rest := docs.Keys;
    while rest != {}
      invariant rest <= docs.Keys
      invariant regular.Keys == docs.Keys - rest && frozen.Keys == docs.Keys - rest
      invariant forall key :: key in regular ==> regular[key] == Regular(docs[key]) && frozen[key] == Frozen(docs[key])
      decreases rest
    {
      var key :| key in rest;
      var r, f := SplitBoxes(docs[key]);
      regular := regular[key := r];
      frozen := frozen[key := f];
      rest := rest - {key};
    }
    assert regular.Keys == docs.Keys && frozen.Keys == docs.Keys;
  }

  /**
   * The images with frozen boxes set aside that are missing from `docs`: appending
   * their boxes would look them up and fail.
   */
  function Unplaced(docs: Documents, frozen: Documents): set<string>
  {
    set key | key in frozen && frozen[key] != [] && key !in docs
  }

  /** The frozen boxes appended back to their image's boxes. */
  method RestoreFrozen(docs: Documents, frozen: Documents) returns (r: Documents)
    requires Unplaced(docs, frozen) == {}
    ensures r == Restored(docs, frozen)
  {
    r := docs;
    var rest := frozen.Keys;
    while rest != {}
      invariant rest <= frozen.Keys && r.Keys == docs.Keys
      invariant forall key :: key in docs ==> r[key] == docs[key] + (if key in frozen && key !in rest then frozen[key] else [])
      decreases rest
    {
      var key :| key in rest;
      if frozen[key] != [] {
        assert key !in Unplaced(docs, frozen);
        r := r[key := r[key] + frozen[key]];
      }
      rest := rest - {key};
    }
    assert r.Keys == docs.Keys;
  }
}

/**
 * The thread resolver: the root of an Object is reached by following
 * `in_reply_to` until an Object without a parent, and its ancestry is
 * every Object met on the way, from the Object itself up to but not
 * including the root.
 *
 * Termination rests on a rank for every stored Object that is larger than
 * its parent's: an Object is only ever saved with a parent that was saved
 * before it, so the chain cannot loop back.
 */
module Thread {
  import opened Text
  import opened Entities

  /** Every parent is stored and ranks strictly below its child. */
  ghost predicate Ranked(objs: map<ObjKey, Obj>, rank: map<ObjKey, nat>)
  {
    forall k | k in objs ::
      && k in rank
      && (objs[k].inReplyTo.Some? ==>
            var p := objs[k].inReplyTo.value;
            p in objs && p in rank && rank[p] < rank[k])
  }

  /** The thread root: the first Object up the chain with no parent. */
  ghost function RootOf(objs: map<ObjKey, Obj>, rank: map<ObjKey, nat>, k: ObjKey): (root: ObjKey)
    requires Ranked(objs, rank) && k in objs
    ensures root in objs && objs[root].inReplyTo.None?
    decreases rank[k]
  {
    match objs[k].inReplyTo
    case None => k
    case Some(p) => RootOf(objs, rank, p)
  }

  /** The Objects from `k` up to, excluding, its root; nearest first. */
  ghost function Ancestry(objs: map<ObjKey, Obj>, rank: map<ObjKey, nat>, k: ObjKey): (chain: seq<ObjKey>)
    requires Ranked(objs, rank) && k in objs
    ensures forall n | n in chain :: n in objs
    decreases rank[k]
  {
    match objs[k].inReplyTo
    case None => []
    case Some(p) => [k] + Ancestry(objs, rank, p)
  }

  /**
   * The ancestry is the chain of parent links: it starts at `k` unless `k` is
   * its own root, each node's parent is the next node, the last node's
   * parent is the root, every node has the same root as `k`, and the root
   * itself is never part of it.
   */
  lemma {:induction false} AncestryIsChain(objs: map<ObjKey, Obj>, rank: map<ObjKey, nat>, k: ObjKey)
    requires Ranked(objs, rank) && k in objs
    ensures Ancestry(objs, rank, k) == [] <==> RootOf(objs, rank, k) == k
    ensures Ancestry(objs, rank, k) == [] <==> objs[k].inReplyTo.None?
    ensures Ancestry(objs, rank, k) != [] ==> Ancestry(objs, rank, k)[0] == k
    ensures forall n | n in Ancestry(objs, rank, k) ::
              n in objs && objs[n].inReplyTo.Some? && RootOf(objs, rank, n) == RootOf(objs, rank, k)
    ensures forall i | 0 <= i < |Ancestry(objs, rank, k)| - 1 ::
              objs[Ancestry(objs, rank, k)[i]].inReplyTo == Some(Ancestry(objs, rank, k)[i + 1])
    ensures Ancestry(objs, rank, k) != [] ==>
              objs[Ancestry(objs, rank, k)[|Ancestry(objs, rank, k)| - 1]].inReplyTo == Some(RootOf(objs, rank, k))
    ensures RootOf(objs, rank, k) !in Ancestry(objs, rank, k)
    decreases rank[k]
  {
    match objs[k].inReplyTo
    case None =>
    case Some(p) =>
      AncestryIsChain(objs, rank, p);
      var rest := Ancestry(objs, rank, p);
      var chain := Ancestry(objs, rank, k);
      assert chain == [k] + rest;
      assert RootOf(objs, rank, k) == RootOf(objs, rank, p);
      forall i | 0 <= i < |chain| - 1
        ensures objs[chain[i]].inReplyTo == Some(chain[i + 1])
      {
        if i > 0 {
          assert chain[i] == rest[i - 1] && chain[i + 1] == rest[i];
        }
      }
      if rest == [] {
        assert RootOf(objs, rank, p) == p;
      } else {
        assert chain[|chain| - 1] == rest[|rest| - 1];
      }
  }

  /** Ranks fall strictly along the ancestry, so no Object appears twice in it. */
  lemma {:induction false} AncestryDistinct(objs: map<ObjKey, Obj>, rank: map<ObjKey, nat>, k: ObjKey)
    requires Ranked(objs, rank) && k in objs
    ensures var chain := Ancestry(objs, rank, k);
            && (forall i | 0 <= i < |chain| :: chain[i] in rank && rank[chain[i]] <= rank[k])
            && (forall i, j | 0 <= i < j < |chain| :: chain[i] != chain[j])
            && |chain| <= rank[k]
    decreases rank[k]
  {
    match objs[k].inReplyTo
    case None =>
    case Some(p) =>
      AncestryDistinct(objs, rank, p);
      var rest := Ancestry(objs, rank, p);
      var chain := Ancestry(objs, rank, k);
      assert chain == [k] + rest;
      forall i | 0 <= i < |chain|
        ensures chain[i] in rank && rank[chain[i]] <= rank[k]
      {
        if i > 0 { assert chain[i] == rest[i - 1]; }
      }
      forall i, j | 0 <= i < j < |chain|
        ensures chain[i] != chain[j]
      {
        if i > 0 {
          assert chain[i] == rest[i - 1] && chain[j] == rest[j - 1];
        } else {
          assert chain[j] == rest[j - 1];
          assert rank[chain[j]] <= rank[p] < rank[k];
        }
      }
  }

  /**
   * Saving a new Object under a parent that is already stored: the thread
   * root of every stored Object stays the same, and the new Object's root is
   * its parent's root.
   */
  lemma {:induction false} RootAfterInsert(
    objs: map<ObjKey, Obj>, rank: map<ObjKey, nat>, k: ObjKey, o: Obj, r: nat, x: ObjKey)
    requires Ranked(objs, rank) && k !in objs
    requires o.inReplyTo.Some? ==> o.inReplyTo.value in objs && rank[o.inReplyTo.value] < r
    requires x in objs || x == k
    ensures Ranked(objs[k := o], rank[k := r])
    ensures x in objs ==> RootOf(objs[k := o], rank[k := r], x) == RootOf(objs, rank, x)
    ensures x == k && o.inReplyTo.Some? ==>
              RootOf(objs[k := o], rank[k := r], x) == RootOf(objs, rank, o.inReplyTo.value)
    ensures x == k && o.inReplyTo.None? ==> RootOf(objs[k := o], rank[k := r], x) == k
    decreases if x in objs then rank[x] else r + 1
  {
    var objs', rank' := objs[k := o], rank[k := r];
    assert Ranked(objs', rank') by {
      forall y | y in objs'
        ensures y in rank' && (objs'[y].inReplyTo.Some? ==>
          var p := objs'[y].inReplyTo.value; p in objs' && p in rank' && rank'[p] < rank'[y])
      {
        if y != k {
          assert objs'[y] == objs[y];
          if objs[y].inReplyTo.Some? {
            assert objs[y].inReplyTo.value != k;
          }
        }
      }
    }
    if x == k {
      if o.inReplyTo.Some? {
        RootAfterInsert(objs, rank, k, o, r, o.inReplyTo.value);
      }
    } else {
      assert objs'[x] == objs[x];
      if objs[x].inReplyTo.Some? {
        RootAfterInsert(objs, rank, k, o, r, objs[x].inReplyTo.value);
      }
    }
  }
}

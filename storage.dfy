/**
 * The canonical store the pollers write to: one table per model, each with
 * the uniqueness constraint the pollers' get-or-create relies on, and the
 * two walks over `in_reply_to` that the stream projection performs.
 */
module Storage {
  import opened Text
  import opened Entities
  import opened Thread

  class Store {
    var media: seq<Media>
    var persons: seq<Person>
    var accounts: map<AccountKey, Account>
    var objects: map<ObjKey, Obj>
    var stream: map<StreamKey, StreamEntry>
    var replies: map<ReplyKey, ReplyEntry>
    /** How many parent links separate an Object from its thread root. */
    ghost var rank: map<ObjKey, nat>

    /** Every reference between rows points at a stored row, and parent links are acyclic. */
    ghost predicate Valid()
      reads this
    {
      && (forall a | a in accounts :: accounts[a].person < |persons|)
      && (forall i | 0 <= i < |persons| :: persons[i].avatar.Some? ==> persons[i].avatar.value < |media|)
      && (forall k | k in objects ::
            objects[k].author in accounts && (objects[k].image.Some? ==> objects[k].image.value < |media|))
      && Ranked(objects, rank)
      && (forall s | s in stream :: s.obj in objects && stream[s].actor in accounts)
      && (forall r | r in replies :: r.root in objects && r.reply in objects)
    }

    function Snapshot(): Tables
      reads this
    {
      Entities.Tables(media, persons, accounts, objects, stream, replies)
    }

    constructor ()
      ensures Valid()
      ensures Snapshot() == Entities.Tables([], [], map[], map[], map[], map[])
    {
      media, persons := [], [];
      accounts, objects := map[], map[];
      stream, replies := map[], map[];
      rank := map[];
    }

    /** `Media(...).save()`: the new row's id is the next free number. */
    method AddMedia(m: Media) returns (id: MediaId)
      requires Valid()
      modifies this
      ensures RowsKept(old(Snapshot()), Snapshot()) && StreamsKept(old(Snapshot()), Snapshot())
      ensures Valid() && rank == old(rank)
      ensures id == |old(media)|
      ensures Snapshot() == old(Snapshot()).(media := old(media) + [m])
    {
      id := |media|;
      media := media + [m];
      assert media[..id] == old(media);
    }

    /** Saving a new Person: one row appended. */
    method AddPerson(p: Person) returns (id: PersonId)
      requires Valid()
      requires p.avatar.Some? ==> p.avatar.value < |media|
      modifies this
      ensures RowsKept(old(Snapshot()), Snapshot()) && StreamsKept(old(Snapshot()), Snapshot())
      ensures Valid() && rank == old(rank)
      ensures id == |old(persons)|
      ensures Snapshot() == old(Snapshot()).(persons := old(persons) + [p])
    {
      id := |persons|;
      persons := persons + [p];
      assert persons[..id] == old(persons);
      forall i | 0 <= i < |persons|
        ensures persons[i].avatar.Some? ==> persons[i].avatar.value < |media|
      {
        if i < id {
          assert persons[i] == old(persons)[i];
        }
      }
    }

    /** `Account(...).save()` for a key that is not stored yet. */
    method AddAccount(key: AccountKey, a: Account)
      requires Valid()
      requires key !in accounts && a.person < |persons|
      modifies this
      ensures RowsKept(old(Snapshot()), Snapshot()) && StreamsKept(old(Snapshot()), Snapshot())
      ensures Valid() && rank == old(rank)
      ensures Snapshot() == old(Snapshot()).(accounts := old(accounts)[key := a])
    {
      accounts := accounts[key := a];
    }

    /**
     * `Object(...).save()` for a new row.  A key that is already stored is
     * refused by the uniqueness constraint, and the store is left as it was.
     */
    method InsertObject(key: ObjKey, o: Obj) returns (res: Result<ObjKey>)
      requires Valid()
      requires o.author in accounts && (o.image.Some? ==> o.image.value < |media|)
      requires o.inReplyTo.Some? ==> o.inReplyTo.value in objects
      modifies this
      ensures RowsKept(old(Snapshot()), Snapshot()) && StreamsKept(old(Snapshot()), Snapshot())
      ensures Valid()
      ensures key in old(objects) ==> res == Err(DuplicateKey) && Snapshot() == old(Snapshot()) && rank == old(rank)
      ensures key !in old(objects) ==> res == Ok(key) && Snapshot() == old(Snapshot()).(objects := old(objects)[key := o])
    {
      if key in objects {
        return Err(DuplicateKey);
      }
      var r: nat := if o.inReplyTo.Some? then rank[o.inReplyTo.value] + 1 else 0;
      RootAfterInsert(objects, rank, key, o, r, key);
      objects := objects[key := o];
      rank := rank[key := r];
      res := Ok(key);
    }

    /** `obj.save()` on a row that was fetched and had some fields reassigned; its parent link is kept. */
    method UpdateObject(key: ObjKey, o: Obj)
      requires Valid()
      requires key in objects && o.inReplyTo == objects[key].inReplyTo
      requires o.author in accounts && (o.image.Some? ==> o.image.value < |media|)
      modifies this
      ensures StreamsKept(old(Snapshot()), Snapshot())
      ensures Valid() && rank == old(rank)
      ensures Snapshot() == old(Snapshot()).(objects := old(objects)[key := o])
    {
      objects := objects[key := o];
    }

    /**
     * `UserStream.objects.get_or_create(user=..., obj=..., defaults=...)`:
     * the defaults are written only when no row has the key yet.
     */
    method EnsureStream(key: StreamKey, entry: StreamEntry)
      requires Valid()
      requires key.obj in objects && entry.actor in accounts
      modifies this
      ensures RowsKept(old(Snapshot()), Snapshot()) && StreamsKept(old(Snapshot()), Snapshot())
      ensures Valid() && rank == old(rank)
      ensures key in stream
      ensures Snapshot() == old(Snapshot()).(stream := if key in old(stream) then old(stream) else old(stream)[key := entry])
    {
      if key !in stream {
        stream := stream[key := entry];
      }
    }

    /** The walk from an Object up its parent links to the root of its thread. */
    method WalkToRoot(k: ObjKey) returns (root: ObjKey)
      requires Valid() && k in objects
      ensures root == RootOf(objects, rank, k)
      ensures root in objects && objects[root].inReplyTo.None?
    {
      root := k;
      while objects[root].inReplyTo.Some?
        invariant root in objects
        invariant RootOf(objects, rank, root) == RootOf(objects, rank, k)
        decreases rank[root]
      {
        root := objects[root].inReplyTo.value;
      }
    }

    /**
     * The walk that records one UserReplyStream row (user, root, node) for
     * every node from the leaf up to, excluding, the root, each one a
     * get-or-create.
     */
    method RecordReplies(user: UserId, root: ObjKey, leaf: ObjKey)
      requires Valid() && leaf in objects && root == RootOf(objects, rank, leaf)
      modifies this
      ensures RowsKept(old(Snapshot()), Snapshot()) && StreamsKept(old(Snapshot()), Snapshot())
      ensures Valid() && rank == old(rank)
      ensures Snapshot() == old(Snapshot()).(replies := replies)
      ensures replies == ReplyRows(objects, user, root, Ancestry(objects, rank, leaf), old(replies))
    {
      var node := leaf;
      var m := replies;
      ghost var done: seq<ObjKey> := [];
      while objects[node].inReplyTo.Some?
        invariant node in objects
        invariant Ancestry(objects, rank, leaf) == done + Ancestry(objects, rank, node)
        invariant m == ReplyRows(objects, user, root, done, replies)
        decreases rank[node]
      {
        m := PutReply(m, ReplyKey(user, root, node), ReplyEntry(objects[root].time, objects[node].time));
        assert (done + [node])[..|done|] == done;
        done := done + [node];
        node := objects[node].inReplyTo.value;
      }
      assert done == Ancestry(objects, rank, leaf);
      ReplyRowsSpec(objects, user, root, done, replies);
      forall r | r in m ensures r.root in objects && r.reply in objects
      {
        if r !in replies {
          var n :| n in done && r == ReplyKey(user, root, n);
        }
      }
      RowsKeptReflexive(Snapshot());
      replies := m;
    }
  }

  /** A get-or-create on UserReplyStream: an existing row is left as it is. */
  function PutReply(m: map<ReplyKey, ReplyEntry>, key: ReplyKey, entry: ReplyEntry): map<ReplyKey, ReplyEntry>
  {
    if key in m then m else m[key := entry]
  }

  /** The UserReplyStream table after one get-or-create per node, in order. */
  ghost function ReplyRows(
    objs: map<ObjKey, Obj>, user: UserId, root: ObjKey, nodes: seq<ObjKey>, m: map<ReplyKey, ReplyEntry>)
    : map<ReplyKey, ReplyEntry>
    requires root in objs && forall n | n in nodes :: n in objs
  {
    if nodes == [] then m
    else
      var n := nodes[|nodes| - 1];
      PutReply(ReplyRows(objs, user, root, nodes[..|nodes| - 1], m),
               ReplyKey(user, root, n), ReplyEntry(objs[root].time, objs[n].time))
  }

  /**
   * The rows recorded for a list of nodes: one key per node added, every
   * row already present unchanged, and each new row carrying the root's
   * and the node's times.
   */
  lemma {:induction false} ReplyRowsSpec(
    objs: map<ObjKey, Obj>, user: UserId, root: ObjKey, nodes: seq<ObjKey>, m: map<ReplyKey, ReplyEntry>)
    requires root in objs && forall n | n in nodes :: n in objs
    ensures var r := ReplyRows(objs, user, root, nodes, m);
            && r.Keys == m.Keys + (set n | n in nodes :: ReplyKey(user, root, n))
            && (forall k | k in m :: r[k] == m[k])
            && (forall n | n in nodes && ReplyKey(user, root, n) !in m ::
                  r[ReplyKey(user, root, n)] == ReplyEntry(objs[root].time, objs[n].time))
  {
    if nodes != [] {
      var init := nodes[..|nodes| - 1];
      ReplyRowsSpec(objs, user, root, init, m);
      assert nodes == init + [nodes[|nodes| - 1]];
    }
  }
}

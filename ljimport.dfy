/**
 * The LiveJournal importer: reading one XML export (its friend groups,
 * friends, posts and nested comments) into the blog's Person, Identity,
 * Group and Asset tables.  Re-importing an export updates the rows it
 * already wrote, because every row is found by a key derived from the
 * export: the OpenID of a user, the tag of a group, the Atom id of an
 * entry.
 */
module LjImport {
  import opened Text
  import opened Entities

  // ---------------------------------------------------------------------
  // Names derived from the export

  /**
   * `generate_openid`: the OpenID LiveJournal serves for a user.  A name
   * with a leading underscore cannot be a host name and is served under
   * `users.`; any other name becomes a host label with `_` spelt `-`.
   */
  function GenerateOpenid(domain: string, username: string): string
  {
    if StartsWith(username, "_") then "http://users." + domain + "/" + username + "/"
    else "http://" + ReplaceAll(username, "_", "-") + "." + domain + "/"
  }

  /** A user name with a leading underscore is kept as it is, as a path segment. */
  lemma OpenidForUnderscoreName(domain: string, username: string)
    requires StartsWith(username, "_")
    ensures var r := GenerateOpenid(domain, username);
      && StartsWith(r, "http://users." + domain + "/")
      && r[|"http://users." + domain + "/"|..] == username + "/"
  {
  }

  /**
   * Any other name becomes the host label: the name with each `_` replaced
   * by `-`, character by character, so the label holds no `_`.
   */
  lemma OpenidHostLabel(domain: string, username: string)
    requires !StartsWith(username, "_")
    ensures var r := GenerateOpenid(domain, username);
      && |r| == |"http://"| + |username| + |"." + domain + "/"|
      && r[..7] == "http://"
      && r[7 + |username|..] == "." + domain + "/"
      && (forall i | 0 <= i < |username| ::
            r[7 + i] == (if username[i] == '_' then '-' else username[i]))
      && (forall j | 7 <= j < 7 + |username| :: r[j] != '_')
  {
    ReplaceChar(username, '_', '-');
    var host := ReplaceAll(username, "_", "-");
    var r := GenerateOpenid(domain, username);
    assert r == "http://" + host + ("." + domain + "/");
    forall j | 7 <= j < 7 + |username|
      ensures r[j] != '_'
    {
      assert r[j] == host[j - 7];
    }
  }

  /**
   * Two user names without a `-` and without a leading underscore never
   * share an OpenID, so `person_for_openid` keeps such friends apart.
   */
  lemma OpenidInjective(domain: string, u1: string, u2: string)
    requires !StartsWith(u1, "_") && !StartsWith(u2, "_")
    requires '-' !in u1 && '-' !in u2
    requires GenerateOpenid(domain, u1) == GenerateOpenid(domain, u2)
    ensures u1 == u2
  {
    OpenidHostLabel(domain, u1);
    OpenidHostLabel(domain, u2);
    var r := GenerateOpenid(domain, u1);
    assert |u1| == |u2|;
    forall i | 0 <= i < |u1|
      ensures u1[i] == u2[i]
    {
      assert r[7 + i] == (if u1[i] == '_' then '-' else u1[i]);
      assert r[7 + i] == (if u2[i] == '_' then '-' else u2[i]);
      assert u1[i] != '-' && u2[i] != '-';
    }
  }

  /**
   * `'.'.join(server.rsplit('.', 2)[1:])`: the last two labels of a server
   * with at least three, the last label of a server with two, and nothing
   * for a server without a dot.
   */
  function ServerDomain(server: string): string
  {
    var parts := Split(server, '.');
    if |parts| >= 3 then parts[|parts| - 2] + "." + parts[|parts| - 1]
    else if |parts| == 2 then parts[1]
    else ""
  }

  lemma ServerDomainLastTwo(host: string, a: string, b: string)
    requires '.' !in a && '.' !in b
    ensures ServerDomain(host + "." + a + "." + b) == a + "." + b
  {
    SplitNoSeparator(a, '.');
    SplitNoSeparator(b, '.');
    SplitConcat(a, '.', b);
    SplitConcat(host, '.', a + "." + b);
    assert host + "." + a + "." + b == host + ['.'] + (a + ['.'] + b);
  }

  lemma ServerDomainTwoLabels(a: string, b: string)
    requires '.' !in a && '.' !in b
    ensures ServerDomain(a + "." + b) == b
  {
    SplitNoSeparator(a, '.');
    SplitNoSeparator(b, '.');
    SplitConcat(a, '.', b);
  }

  lemma ServerDomainNoDot(server: string)
    requires '.' !in server
    ensures ServerDomain(server) == ""
  {
    SplitNoSeparator(server, '.');
  }

  /** The Atom id prefix used when none is given on the command line. */
  function DefaultAtomPrefix(domain: string, username: string): string
  {
    "urn:lj:" + domain + ":atom1:" + username + ":"
  }

  /** A post's Atom id: the prefix followed by its `ditemid`. */
  function PostAtomId(prefix: string, ditemid: string): string
  {
    prefix + ditemid
  }

  /** A comment's Atom id: its parent's Atom id, `:talk:`, and its `jtalkid`. */
  function CommentAtomId(parent: string, jtalkid: string): string
  {
    parent + ":talk:" + jtalkid
  }

  /** The tag of the Group made for friend group `id`. */
  function GroupTag(prefix: string, id: int): string
  {
    prefix + "group:" + IntToString(id)
  }

  lemma DefaultAtomPrefixShape(domain: string, username: string)
    ensures var p := DefaultAtomPrefix(domain, username);
      && StartsWith(p, "urn:lj:" + domain + ":")
      && EndsWith(p, ":atom1:" + username + ":")
  {
    var p := DefaultAtomPrefix(domain, username);
    assert p == ("urn:lj:" + domain + ":") + ("atom1:" + username + ":");
    assert p == "urn:lj:" + domain + (":atom1:" + username + ":");
  }

  /** A comment's Atom id extends its parent's, so the two never coincide. */
  lemma CommentAtomIdExtends(parent: string, jtalkid: string)
    ensures StartsWith(CommentAtomId(parent, jtalkid), parent + ":talk:")
    ensures |CommentAtomId(parent, jtalkid)| > |parent|
  {
    assert CommentAtomId(parent, jtalkid)[..|parent + ":talk:"|] == parent + ":talk:";
  }

  /** Comments on one parent with different `jtalkid`s get different Atom ids. */
  lemma CommentAtomIdInjective(parent: string, j1: string, j2: string)
    requires CommentAtomId(parent, j1) == CommentAtomId(parent, j2)
    ensures j1 == j2
  {
    var n := |parent + ":talk:"|;
    assert CommentAtomId(parent, j1)[n..] == j1;
    assert CommentAtomId(parent, j2)[n..] == j2;
  }

  /** Distinct group ids give distinct tags under one prefix. */
  lemma GroupTagInjective(prefix: string, i: int, j: int)
    requires GroupTag(prefix, i) == GroupTag(prefix, j)
    ensures i == j
  {
    var n := |prefix + "group:"|;
    assert GroupTag(prefix, i)[n..] == IntToString(i);
    assert GroupTag(prefix, j)[n..] == IntToString(j);
    IntToStringRoundTrip(i);
    IntToStringRoundTrip(j);
  }

  // ---------------------------------------------------------------------
  // Props and the preformatted flag

  /** One `<prop name=... value=...>` element of a post or a comment. */
  datatype Prop = Prop(name: string, value: string)

  /** The dictionary built from the props in document order: a later value for a name replaces an earlier one. */
  function PropsOf(props: seq<Prop>): map<string, string>
  {
    if props == [] then map[]
    else PropsOf(props[..|props| - 1])[props[|props| - 1].name := props[|props| - 1].value]
  }

  /** The loop that fills `event_props` and `comment_props`. */
  method PropsDict(props: seq<Prop>) returns (d: map<string, string>)
    ensures d == PropsOf(props)
  {
    d := map[];
    for i := 0 to |props|
      invariant d == PropsOf(props[..i])
    {
      assert props[..i + 1][..i] == props[..i];
      d := d[props[i].name := props[i].value];
    }
    assert props[..|props|] == props;
  }

  /** A name is in the dictionary exactly when some prop carries it, and then it maps to the last such prop's value. */
  lemma {:induction false} PropsLastWins(props: seq<Prop>, name: string)
    ensures name in PropsOf(props) <==> exists i :: 0 <= i < |props| && props[i].name == name
    ensures forall i | 0 <= i < |props| && props[i].name == name
              && (forall j | i < j < |props| :: props[j].name != name) ::
              name in PropsOf(props) && PropsOf(props)[name] == props[i].value
  {
    if props != [] {
      var n := |props| - 1;
      var init := props[..n];
      PropsLastWins(init, name);
      forall i | 0 <= i < n && init[i].name == name
        ensures props[i].name == name
      {
      }
      if (exists i :: 0 <= i < |props| && props[i].name == name) && props[n].name != name {
        var i :| 0 <= i < |props| && props[i].name == name;
        assert init[i].name == name;
      }
    }
  }

  /** `int(props.get('opt_preformatted') or 0)` for a comment: an absent or empty value means not preformatted. */
  function CommentPreformatted(props: map<string, string>): Result<bool>
  {
    if "opt_preformatted" !in props || props["opt_preformatted"] == "" then Ok(false)
    else match ParseInt(props["opt_preformatted"])
      case None => Err(BadNumber(props["opt_preformatted"]))
      case Some(n) => Ok(n != 0)
  }

  /** `int(props.get('opt_preformatted', 0))` for a post: only an absent value means not preformatted. */
  function EventPreformatted(props: map<string, string>): Result<bool>
  {
    if "opt_preformatted" !in props then Ok(false)
    else match ParseInt(props["opt_preformatted"])
      case None => Err(BadNumber(props["opt_preformatted"]))
      case Some(n) => Ok(n != 0)
  }

  /** Both readings agree on a printed number: preformatted exactly when it is not zero. */
  lemma PreformattedNumber(props: map<string, string>, n: int)
    requires "opt_preformatted" in props && props["opt_preformatted"] == IntToString(n)
    ensures CommentPreformatted(props) == Ok(n != 0)
    ensures EventPreformatted(props) == Ok(n != 0)
  {
    IntToStringRoundTrip(n);
  }

  /** They differ on an empty value, which a comment reads as zero and a post refuses. */
  lemma PreformattedEmpty(props: map<string, string>)
    requires "opt_preformatted" in props && props["opt_preformatted"] == ""
    ensures CommentPreformatted(props) == Ok(false)
    ensures EventPreformatted(props) == Err(BadNumber(""))
  {
  }

  // ---------------------------------------------------------------------
  // The allowmask of a 'usemask' post

  /** `mask >> i`; Dafny's `/` by 2 rounds toward minus infinity like Python's shift. */
  function Shifted(mask: int, i: nat): int
  {
    if i == 0 then mask else Shifted(mask, i - 1) / 2
  }

  /** Bit i of the mask: the mask shifted right i times, then its lowest bit. */
  predicate Bit(mask: int, i: nat)
  {
    Shifted(mask, i) % 2 == 1
  }

  /** The friend group ids below `n`, from 1 up, whose bit is set and whose group was imported. */
  function MaskIds(mask: int, n: nat, groups: map<int, string>): seq<int>
  {
    if n <= 1 then []
    else MaskIds(mask, n - 1, groups) + (if Bit(mask, n - 1) && n - 1 in groups then [n - 1] else [])
  }

  /** The groups a mask selects: ids 1 to 29 only, in ascending order. */
  lemma {:induction false} MaskIdsSpec(mask: int, n: nat, groups: map<int, string>)
    ensures forall i :: i in MaskIds(mask, n, groups) <==> 1 <= i < n && Bit(mask, i) && i in groups
    ensures forall a, b | 0 <= a < b < |MaskIds(mask, n, groups)| ::
              MaskIds(mask, n, groups)[a] < MaskIds(mask, n, groups)[b]
  {
    if n > 1 {
      MaskIdsSpec(mask, n - 1, groups);
      var before := MaskIds(mask, n - 1, groups);
      assert forall a | 0 <= a < |before| :: before[a] in before;
    }
  }

  lemma {:induction false} MaskIdsInGroups(mask: int, n: nat, groups: map<int, string>)
    ensures forall k | 0 <= k < |MaskIds(mask, n, groups)| :: MaskIds(mask, n, groups)[k] in groups
  {
    if n > 1 {
      MaskIdsInGroups(mask, n - 1, groups);
    }
  }

  /** The group tags of the given ids, in the same order. */
  function GroupsOf(ids: seq<int>, groups: map<int, string>): seq<string>
    requires forall k | 0 <= k < |ids| :: ids[k] in groups
  {
    seq(|ids|, k requires 0 <= k < |ids| => groups[ids[k]])
  }

  /** The tags of the groups selected by bits 1 to n - 1. */
  function MaskGroupsUpTo(mask: int, n: nat, groups: map<int, string>): seq<string>
  {
    MaskIdsInGroups(mask, n, groups);
    GroupsOf(MaskIds(mask, n, groups), groups)
  }

  /** `mask_groups` after the loop over `range(1, 30)`. */
  function MaskGroups(mask: int, groups: map<int, string>): seq<string>
  {
    MaskGroupsUpTo(mask, 30, groups)
  }

  /** One more turn of the loop appends group `i` when its bit is set and it was imported. */
  lemma MaskGroupsStep(mask: int, i: nat, groups: map<int, string>)
    requires i >= 1
    ensures MaskGroupsUpTo(mask, i + 1, groups)
         == MaskGroupsUpTo(mask, i, groups) + (if Bit(mask, i) && i in groups then [groups[i]] else [])
  {
    MaskIdsInGroups(mask, i, groups);
    MaskIdsInGroups(mask, i + 1, groups);
  }

  lemma {:induction false} ShiftedZeroStays(mask: int, i: nat, j: nat)
    requires Shifted(mask, i) == 0 && i <= j
    ensures Shifted(mask, j) == 0
    decreases j
  {
    if j > i {
      ShiftedZeroStays(mask, i, j - 1);
    }
  }

  /** Once the mask has shifted down to zero no later bit is set. */
  lemma {:induction false} MaskIdsSettled(mask: int, i: nat, n: nat, groups: map<int, string>)
    requires Shifted(mask, i) == 0 && i <= n
    ensures MaskIds(mask, n, groups) == MaskIds(mask, i, groups)
    decreases n
  {
    if n > i {
      MaskIdsSettled(mask, i, n - 1, groups);
      ShiftedZeroStays(mask, i, n - 1);
    }
  }

  /** `mask >> (i + 1)` is `(mask >> 1) >> i`. */
  lemma {:induction false} ShiftedHalf(mask: int, i: nat)
    ensures Shifted(mask, i + 1) == Shifted(mask / 2, i)
  {
    if i > 0 {
      ShiftedHalf(mask, i - 1);
    }
  }

  /** Masks that agree on bits 1 to n - 1 select the same groups. */
  lemma {:induction false} MaskIdsAgree(m1: int, m2: int, n: nat, groups: map<int, string>)
    requires forall i | 1 <= i < n :: Bit(m1, i) == Bit(m2, i)
    ensures MaskIds(m1, n, groups) == MaskIds(m2, n, groups)
  {
    if n > 1 {
      MaskIdsAgree(m1, m2, n - 1, groups);
    }
  }

  /** Bit 0 of the mask is ignored: masks with the same upper bits select the same groups. */
  lemma MaskIgnoresBitZero(m1: int, m2: int, groups: map<int, string>)
    requires m1 / 2 == m2 / 2
    ensures MaskGroups(m1, groups) == MaskGroups(m2, groups)
  {
    forall i | 1 <= i < 30
      ensures Bit(m1, i) == Bit(m2, i)
    {
      ShiftedHalf(m1, i - 1);
      ShiftedHalf(m2, i - 1);
    }
    MaskIdsAgree(m1, m2, 30, groups);
  }

  /** Bits 30 and up are ignored. */
  lemma MaskIgnoresHighBits(m1: int, m2: int, groups: map<int, string>)
    requires forall i | 1 <= i < 30 :: Bit(m1, i) == Bit(m2, i)
    ensures MaskGroups(m1, groups) == MaskGroups(m2, groups)
  {
    MaskIdsAgree(m1, m2, 30, groups);
  }

  /** The allowmask loop, which stops once the mask is spent. */
  method DecodeMask(mask: int, groups: map<int, string>) returns (maskGroups: seq<string>)
    ensures maskGroups == MaskGroups(mask, groups)
  {
    maskGroups := [];
    var m := mask;
    for i := 1 to 30
      invariant m == Shifted(mask, i - 1)
      invariant maskGroups == MaskGroupsUpTo(mask, i, groups)
    {
      m := m / 2;
      if m == 0 {
        MaskIdsSettled(mask, i, 30, groups);
        break;
      }
      MaskGroupsStep(mask, i, groups);
      if m % 2 == 1 && i in groups {
        maskGroups := maskGroups + [groups[i]];
      }
    }
  }

  // ---------------------------------------------------------------------
  // The blog's tables

  /** An Asset row: a post or a comment, found by its Atom id. */
  datatype Asset = Asset(
    title: string,
    content: string,
    author: Option<PersonId>,
    published: Option<Time>,
    inReplyTo: Option<string>,
    inThreadOf: Option<string>,
    imported: bool,
    privateTo: seq<string>)

  /** `Asset(atom_id=...)` before any field is assigned. */
  const NewAsset := Asset("", "", None, None, None, None, false, [])

  /** The row stored under `id`, or a fresh one when there is none. */
  function Found(assets: map<string, Asset>, id: string): Asset
  {
    if id in assets then assets[id] else NewAsset
  }

  /** `asset.in_thread_of or asset`: the post a comment on `parent` belongs to. */
  function ThreadOf(parentId: string, parent: Asset): string
  {
    if parent.inThreadOf.Some? then parent.inThreadOf.value else parentId
  }

  datatype Rows = Rows(
    persons: seq<string>,                      // Person.display_name; a PersonId is a position
    identities: map<string, PersonId>,         // Identity: OpenID to Person
    groups: map<string, string>,               // Group: tag to display name
    memberships: map<PersonId, seq<string>>,   // Person.groups, as group tags
    assets: map<string, Asset>)                // Asset by Atom id

  /** Every foreign key of an Asset points at a stored row. */
  ghost predicate Linked(a: Asset, people: nat, groups: map<string, string>, assets: map<string, Asset>)
  {
    && (a.author.Some? ==> a.author.value < people)
    && (a.inReplyTo.Some? ==> a.inReplyTo.value in assets)
    && (a.inThreadOf.Some? ==> a.inThreadOf.value in assets)
    && (forall k | 0 <= k < |a.privateTo| :: a.privateTo[k] in groups)
  }

  ghost predicate Consistent(t: Rows)
  {
    && (forall o | o in t.identities :: t.identities[o] < |t.persons|)
    && (forall p | p in t.memberships ::
          p < |t.persons| && forall k | 0 <= k < |t.memberships[p]| :: t.memberships[p][k] in t.groups)
    && (forall id | id in t.assets :: Linked(t.assets[id], |t.persons|, t.groups, t.assets))
  }

  /** No Person, Identity, Group or Asset disappears, and Persons, Identities and Groups are never rewritten. */
  ghost predicate Extends(a: Rows, b: Rows)
  {
    && |a.persons| <= |b.persons| && b.persons[..|a.persons|] == a.persons
    && (forall o | o in a.identities :: o in b.identities && b.identities[o] == a.identities[o])
    && (forall t | t in a.groups :: t in b.groups && b.groups[t] == a.groups[t])
    && (forall id | id in a.assets :: id in b.assets)
  }

  lemma ExtendsTransitive(a: Rows, b: Rows, c: Rows)
    requires Extends(a, b) && Extends(b, c)
    ensures Extends(a, c)
  {
    assert c.persons[..|a.persons|] == c.persons[..|b.persons|][..|a.persons|];
  }

  lemma ExtendsReflexive(a: Rows)
    ensures Extends(a, a)
  {
    assert a.persons[..|a.persons|] == a.persons;
  }

  /** Links stay valid when the tables they point into only grow. */
  lemma LinkedGrows(a: Asset, t: Rows, u: Rows)
    requires Linked(a, |t.persons|, t.groups, t.assets) && Extends(t, u)
    ensures Linked(a, |u.persons|, u.groups, u.assets)
  {
  }

  /** Assets outside `ids` are left as they were, and every new Atom id is in `ids`. */
  ghost predicate Confined(a: map<string, Asset>, b: map<string, Asset>, ids: set<string>)
  {
    && (forall k | k in a && k !in ids :: k in b && b[k] == a[k])
    && (forall k | k in b && k !in a :: k in ids)
  }

  lemma ConfinedTransitive(a: map<string, Asset>, b: map<string, Asset>, c: map<string, Asset>, ids: set<string>, more: set<string>)
    requires Confined(a, b, ids) && Confined(b, c, more)
    ensures Confined(a, c, ids + more)
  {
  }

  /** Importing an export whose Atom ids are all stored already adds no Asset. */
  lemma ReimportAddsNoAsset(a: map<string, Asset>, b: map<string, Asset>, ids: set<string>)
    requires Confined(a, b, ids) && ids <= a.Keys && a.Keys <= b.Keys
    ensures b.Keys == a.Keys
  {
  }

  /** The Person, Identity, Group and Asset tables of the blog. */
  class Blog {
    var persons: seq<string>
    var identities: map<string, PersonId>
    var groups: map<string, string>
    var memberships: map<PersonId, seq<string>>
    var assets: map<string, Asset>

    function Snapshot(): Rows
      reads this
    {
      Rows(persons, identities, groups, memberships, assets)
    }

    ghost predicate Valid()
      reads this
    {
      Consistent(Snapshot())
    }

    constructor (groups0: map<string, string>)
      ensures Valid()
      ensures Snapshot() == Rows([], map[], groups0, map[], map[])
    {
      persons, identities, groups := [], map[], groups0;
      memberships, assets := map[], map[];
    }

    /** `person_for_openid`: the Person behind an OpenID, made together with its Identity on a miss. */
    method PersonForOpenid(openid: string, displayName: string) returns (p: PersonId)
      requires Valid()
      modifies this
      ensures Valid() && Extends(old(Snapshot()), Snapshot())
      ensures openid in identities && identities[openid] == p && p < |persons|
      ensures openid in old(identities) ==> Snapshot() == old(Snapshot())
      ensures openid !in old(identities) ==>
        && p == |old(persons)|
        && Snapshot() == old(Snapshot()).(persons := old(persons) + [displayName],
                                          identities := old(identities)[openid := p])
    {
      if openid in identities {
        p := identities[openid];
        ExtendsReflexive(Snapshot());
        return;
      }
      p := |persons|;
      persons := persons + [displayName];
      identities := identities[openid := p];
      assert persons[..p] == old(persons);
      forall id | id in assets
        ensures Linked(assets[id], |persons|, groups, assets)
      {
        LinkedGrows(assets[id], old(Snapshot()), Snapshot());
      }
    }

    /** Get-or-create of a Group by tag: a new Group takes the given name, an existing one keeps its own. */
    method EnsureGroup(tag: string, name: string)
      requires Valid()
      modifies this
      ensures Valid() && Extends(old(Snapshot()), Snapshot())
      ensures tag in groups
      ensures Snapshot() == old(Snapshot()).(groups := if tag in old(groups) then old(groups) else old(groups)[tag := name])
    {
      if tag !in groups {
        groups := groups[tag := name];
        assert persons[..|persons|] == persons;
        forall id | id in assets
          ensures Linked(assets[id], |persons|, groups, assets)
        {
          LinkedGrows(assets[id], old(Snapshot()), Snapshot());
        }
      } else {
        ExtendsReflexive(Snapshot());
      }
    }

    /** The Person's group memberships become exactly the given list. */
    method SetGroups(p: PersonId, tags: seq<string>)
      requires Valid()
      requires p < |persons| && forall k | 0 <= k < |tags| :: tags[k] in groups
      modifies this
      ensures Valid() && Extends(old(Snapshot()), Snapshot())
      ensures Snapshot() == old(Snapshot()).(memberships := old(memberships)[p := tags])
    {
      memberships := memberships[p := tags];
      ExtendsReflexive(old(Snapshot()));
    }

    /** `asset.save()`, or an assignment to `asset.private_to`, for the row with Atom id `id`. */
    method SaveAsset(id: string, a: Asset)
      requires Valid()
      requires Linked(a, |persons|, groups, assets)
      modifies this
      ensures Valid() && Extends(old(Snapshot()), Snapshot())
      ensures Snapshot() == old(Snapshot()).(assets := old(assets)[id := a])
    {
      assets := assets[id := a];
      assert persons[..|persons|] == persons;
      forall k | k in assets
        ensures Linked(assets[k], |persons|, groups, assets)
      {
        if k != id {
          LinkedGrows(assets[k], old(Snapshot()), Snapshot());
        } else {
          LinkedGrows(a, old(Snapshot()), Snapshot());
        }
      }
    }
  }

  // ---------------------------------------------------------------------
  // Friend groups and friends

  /** A `<group>` element under `<friends>`. */
  datatype GroupEl = GroupEl(id: string, name: string)

  /** A `<friend>` element: its user name, its full name and the texts of its `<groups><group>` ids. */
  datatype FriendEl = FriendEl(username: string, fullname: string, groupIds: seq<string>)

  /** `int()` of each text in turn, failing at the first text that is not a number. */
  function ParseAll(texts: seq<string>): Result<seq<int>>
  {
    if texts == [] then Ok([])
    else match ParseAll(texts[..|texts| - 1])
      case Err(f) => Err(f)
      case Ok(ids) =>
        match ParseInt(texts[|texts| - 1])
          case None => Err(BadNumber(texts[|texts| - 1]))
          case Some(n) => Ok(ids + [n])
  }

  lemma {:induction false} ParseAllSpec(texts: seq<string>)
    ensures ParseAll(texts).Ok? <==> forall i | 0 <= i < |texts| :: ParseInt(texts[i]).Some?
    ensures ParseAll(texts).Ok? ==>
      && |ParseAll(texts).value| == |texts|
      && forall i | 0 <= i < |texts| :: ParseInt(texts[i]) == Some(ParseAll(texts).value[i])
    ensures ParseAll(texts).Err? ==>
      exists i | 0 <= i < |texts| :: ParseInt(texts[i]).None? && ParseAll(texts).failure == BadNumber(texts[i])
  {
    if texts != [] {
      var init := texts[..|texts| - 1];
      ParseAllSpec(init);
      if ParseAll(init).Err? {
        var i :| 0 <= i < |init| && ParseInt(init[i]).None? && ParseAll(init).failure == BadNumber(init[i]);
        assert texts[i] == init[i];
      }
    }
  }

  /** `[group_objs[id] for id in ids]`, failing at the first id with no group. */
  function LookupAll(ids: seq<int>, groupObjs: map<int, string>): Result<seq<string>>
  {
    if ids == [] then Ok([])
    else match LookupAll(ids[..|ids| - 1], groupObjs)
      case Err(f) => Err(f)
      case Ok(tags) =>
        var id := ids[|ids| - 1];
        if id in groupObjs then Ok(tags + [groupObjs[id]]) else Err(MissingKey(IntToString(id)))
  }

  lemma {:induction false} LookupAllSpec(ids: seq<int>, groupObjs: map<int, string>)
    ensures LookupAll(ids, groupObjs).Ok? <==> forall i | 0 <= i < |ids| :: ids[i] in groupObjs
    ensures LookupAll(ids, groupObjs).Ok? ==>
      && |LookupAll(ids, groupObjs).value| == |ids|
      && forall i | 0 <= i < |ids| :: LookupAll(ids, groupObjs).value[i] == groupObjs[ids[i]]
  {
    if ids != [] {
      LookupAllSpec(ids[..|ids| - 1], groupObjs);
      assert forall i | 0 <= i < |ids| - 1 :: ids[..|ids| - 1][i] == ids[i];
    }
  }

  /** The id texts of the group elements. */
  function IdTexts(els: seq<GroupEl>): seq<string>
  {
    seq(|els|, i requires 0 <= i < |els| => els[i].id)
  }

  /**
   * `group_objs` after the friend-group loop: each id
   * maps to the tag made from it, and that Group exists.
   */
  ghost predicate GroupObjs(m: map<int, string>, prefix: string, ids: seq<int>, groups: map<string, string>)
  {
    && (forall id :: id in m <==> id in ids)
    && (forall id | id in m :: m[id] == GroupTag(prefix, id) && m[id] in groups)
  }

  /** Every Group the loop made carries the name of an element with its tag. */
  ghost predicate NamedFrom(groups: map<string, string>, old0: map<string, string>, prefix: string, els: seq<GroupEl>)
  {
    forall t | t in groups && t !in old0 ::
      exists i | 0 <= i < |els| :: ParseInt(els[i].id).Some? && t == GroupTag(prefix, ParseInt(els[i].id).value)
                                   && groups[t] == els[i].name
  }

  /** The friend-group loop: one Group per friend group, made on first sight under its tag. */
  method ImportGroups(blog: Blog, prefix: string, els: seq<GroupEl>) returns (res: Result<map<int, string>>)
    requires blog.Valid()
    modifies blog
    ensures blog.Valid() && Extends(old(blog.Snapshot()), blog.Snapshot())
    ensures blog.Snapshot() == old(blog.Snapshot()).(groups := blog.groups)
    ensures NamedFrom(blog.groups, old(blog.groups), prefix, els)
    ensures res.Err? <==> ParseAll(IdTexts(els)).Err?
    ensures res.Err? ==> res.failure == ParseAll(IdTexts(els)).failure
    ensures res.Ok? ==> GroupObjs(res.value, prefix, ParseAll(IdTexts(els)).value, blog.groups)
  {
    var m: map<int, string> := map[];
    ghost var ids: seq<int> := [];
    ExtendsReflexive(blog.Snapshot());
    for i := 0 to |els|
      invariant blog.Valid() && Extends(old(blog.Snapshot()), blog.Snapshot())
      invariant blog.Snapshot() == old(blog.Snapshot()).(groups := blog.groups)
      invariant NamedFrom(blog.groups, old(blog.groups), prefix, els)
      invariant ParseAll(IdTexts(els)[..i]) == Ok(ids)
      invariant GroupObjs(m, prefix, ids, blog.groups)
    {
      assert IdTexts(els)[..i + 1][..i] == IdTexts(els)[..i];
      var parsed := ParseInt(els[i].id);
      if parsed.None? {
        res := Err(BadNumber(els[i].id));
        ParseAllPrefixFails(IdTexts(els), i + 1);
        return;
      }
      var id := parsed.value;
      var tag := GroupTag(prefix, id);
      ghost var before := blog.Snapshot();
      blog.EnsureGroup(tag, els[i].name);
      ExtendsTransitive(old(blog.Snapshot()), before, blog.Snapshot());
      NamedFromStep(before.groups, blog.groups, old(blog.groups), prefix, els, i);
      GroupObjsStep(m, prefix, ids, before.groups, blog.groups, id);
      m := m[id := tag];
      ids := ids + [id];
    }
    assert IdTexts(els)[..|els|] == IdTexts(els);
    res := Ok(m);
  }

  lemma NamedFromStep(g0: map<string, string>, g1: map<string, string>, old0: map<string, string>,
                      prefix: string, els: seq<GroupEl>, i: nat)
    requires NamedFrom(g0, old0, prefix, els)
    requires i < |els| && ParseInt(els[i].id).Some?
    requires var tag := GroupTag(prefix, ParseInt(els[i].id).value);
      g1 == if tag in g0 then g0 else g0[tag := els[i].name]
    ensures NamedFrom(g1, old0, prefix, els)
  {
  }

  lemma GroupObjsStep(m: map<int, string>, prefix: string, ids: seq<int>,
                      g0: map<string, string>, g1: map<string, string>, id: int)
    requires GroupObjs(m, prefix, ids, g0)
    requires (forall t | t in g0 :: t in g1) && GroupTag(prefix, id) in g1
    ensures GroupObjs(m[id := GroupTag(prefix, id)], prefix, ids + [id], g1)
  {
  }

  /** A parse that fails on a prefix fails with the same error on the whole list. */
  lemma {:induction false} ParseAllPrefixFails(texts: seq<string>, n: nat)
    requires n <= |texts| && ParseAll(texts[..n]).Err?
    ensures ParseAll(texts) == ParseAll(texts[..n])
    decreases |texts| - n
  {
    if n < |texts| {
      assert texts[..n + 1][..n] == texts[..n];
      ParseAllPrefixFails(texts, n + 1);
    } else {
      assert texts[..n] == texts;
    }
  }

  /**
   * One turn of the friends loop: the friend's Person, then its
   * groups, replaced by the ones listed.  The Person is made even when an
   * id then fails to parse or names no group.
   */
  method ImportFriend(blog: Blog, domain: string, f: FriendEl, groupObjs: map<int, string>) returns (res: Result<PersonId>)
    requires blog.Valid()
    requires forall id | id in groupObjs :: groupObjs[id] in blog.groups
    modifies blog
    ensures blog.Valid() && Extends(old(blog.Snapshot()), blog.Snapshot())
    ensures blog.groups == old(blog.groups) && blog.assets == old(blog.assets)
    ensures var openid := GenerateOpenid(domain, f.username);
      && openid in blog.identities
      && (openid in old(blog.identities) ==> blog.persons == old(blog.persons))
      && (openid !in old(blog.identities) ==> blog.persons == old(blog.persons) + [f.fullname])
    ensures res.Err? <==> ParseAll(f.groupIds).Err? || LookupAll(ParseAll(f.groupIds).value, groupObjs).Err?
    ensures res.Err? ==> blog.memberships == old(blog.memberships)
    ensures res.Ok? ==>
      && res.value == blog.identities[GenerateOpenid(domain, f.username)]
      && blog.memberships == old(blog.memberships)[res.value := LookupAll(ParseAll(f.groupIds).value, groupObjs).value]
  {
    ghost var tags0 := blog.groups;
    assert forall id | id in groupObjs :: groupObjs[id] in tags0;
    var p := blog.PersonForOpenid(GenerateOpenid(domain, f.username), f.fullname);
    var ids := ParseAll(f.groupIds);
    if ids.Err? {
      return Err(ids.failure);
    }
    var tags := LookupAll(ids.value, groupObjs);
    if tags.Err? {
      return Err(tags.failure);
    }
    LookupAllSpec(ids.value, groupObjs);
    assert blog.groups == old(blog.groups);
    forall k | 0 <= k < |tags.value|
      ensures tags.value[k] in blog.groups
    {
      assert ids.value[k] in groupObjs;
      assert groupObjs[ids.value[k]] in tags0;
      assert tags.value[k] == groupObjs[ids.value[k]];
    }
    ghost var before := blog.Snapshot();
    blog.SetGroups(p, tags.value);
    ExtendsTransitive(old(blog.Snapshot()), before, blog.Snapshot());
    res := Ok(p);
  }

  /** The friends loop: every friend gets a Person under its OpenID. */
  method ImportFriends(blog: Blog, domain: string, friends: seq<FriendEl>, groupObjs: map<int, string>) returns (res: Result<()>)
    requires blog.Valid()
    requires forall id | id in groupObjs :: groupObjs[id] in blog.groups
    modifies blog
    ensures blog.Valid() && Extends(old(blog.Snapshot()), blog.Snapshot())
    ensures blog.groups == old(blog.groups) && blog.assets == old(blog.assets)
    ensures res.Ok? ==> forall i | 0 <= i < |friends| :: GenerateOpenid(domain, friends[i].username) in blog.identities
  {
    ExtendsReflexive(blog.Snapshot());
    for i := 0 to |friends|
      invariant blog.Valid() && Extends(old(blog.Snapshot()), blog.Snapshot())
      invariant blog.groups == old(blog.groups) && blog.assets == old(blog.assets)
      invariant forall j | 0 <= j < i :: GenerateOpenid(domain, friends[j].username) in blog.identities
    {
      ghost var before := blog.Snapshot();
      var r := ImportFriend(blog, domain, friends[i], groupObjs);
      ExtendsTransitive(old(blog.Snapshot()), before, blog.Snapshot());
      if r.Err? {
        return Err(r.failure);
      }
    }
    res := Ok(());
  }

  // ---------------------------------------------------------------------
  // Posts and comments

  /**
   * A `<comment>` element.  An absent subject or poster is the empty
   * string, which the importer treats as absent too.
   */
  datatype CommentEl = CommentEl(
    jtalkid: string,
    subject: string,
    body: string,
    props: seq<Prop>,
    poster: string,
    replies: seq<CommentEl>)

  /** An `<event>` element: one post.  An absent subject or date is the empty string. */
  datatype EventEl = EventEl(
    ditemid: string,
    subject: string,
    date: string,
    body: string,
    props: seq<Prop>,
    security: Option<string>,
    allowmask: Option<string>,
    comments: seq<CommentEl>)

  /**
   * What the importer hands to libraries outside this model: the HTML
   * rewriting of a comment body (`format_soup`) and of a post body
   * (`format_soup` unless preformatted, then the unwrapping of `lj-raw` and
   * `lj-cut`), and `strptime` with the export's date format.
   */
  datatype Formats = Formats(
    comment: string -> string,
    event: (string, bool) -> string,
    date: string -> Option<Time>)

  /** The Atom ids a comment and its nested replies are stored under. */
  function TreeIds(c: CommentEl, parentId: string): (ids: set<string>)
    ensures forall k | k in ids :: |k| > |parentId|
    decreases c
  {
    var id := CommentAtomId(parentId, c.jtalkid);
    {id} + ForestIds(c.replies, id)
  }

  /** The Atom ids of a list of comments on one parent and of their nested replies. */
  function ForestIds(cs: seq<CommentEl>, parentId: string): (ids: set<string>)
    ensures forall k | k in ids :: |k| > |parentId|
    decreases cs
  {
    if cs == [] then {} else ForestIds(cs[..|cs| - 1], parentId) + TreeIds(cs[|cs| - 1], parentId)
  }

  lemma {:induction false} ForestIdsPrefix(cs: seq<CommentEl>, parentId: string, n: nat)
    requires n <= |cs|
    ensures ForestIds(cs[..n], parentId) <= ForestIds(cs, parentId)
    decreases |cs|
  {
    if n < |cs| {
      var init := cs[..|cs| - 1];
      ForestIdsPrefix(init, parentId, n);
      assert init[..n] == cs[..n];
    } else {
      assert cs[..n] == cs;
    }
  }

  /**
   * Every Atom id in `ids` is stored as a reply to `root` or to another
   * row in `ids`, in the given thread and with the given privacy.
   */
  ghost predicate Threaded(assets: map<string, Asset>, ids: set<string>, root: string, thread: string,
                           privateTo: seq<string>)
  {
    forall k | k in ids ::
      && k in assets
      && assets[k].inThreadOf == Some(thread)
      && assets[k].privateTo == privateTo
      && assets[k].inReplyTo.Some?
      && (assets[k].inReplyTo.value == root || assets[k].inReplyTo.value in ids)
  }

  /** Who wrote a comment: the Person behind the poster's OpenID, or whoever the row had before for an anonymous one. */
  ghost predicate AuthoredBy(a: Asset, before: Asset, c: CommentEl, domain: string, identities: map<string, PersonId>)
  {
    if c.poster == "" then a.author == before.author
    else GenerateOpenid(domain, c.poster) in identities && a.author == Some(identities[GenerateOpenid(domain, c.poster)])
  }

  /** The row `import_comment` saves for comment `c` on the row `parent` stored under `parentId`. */
  ghost predicate CommentSaved(a: Asset, before: Asset, c: CommentEl, parentId: string, parent: Asset,
                               domain: string, fmt: Formats, identities: map<string, PersonId>)
  {
    && a.title == c.subject
    && CommentPreformatted(PropsOf(c.props)).Ok?
    && a.content == (if CommentPreformatted(PropsOf(c.props)).value then c.body else fmt.comment(c.body))
    && a.inReplyTo == Some(parentId)
    && a.inThreadOf == Some(ThreadOf(parentId, parent))
    && AuthoredBy(a, before, c, domain, identities)
    && a.published == before.published
    && a.imported
    && a.privateTo == parent.privateTo
  }

  lemma AuthoredByKept(a: Asset, before: Asset, c: CommentEl, domain: string, t: Rows, u: Rows)
    requires AuthoredBy(a, before, c, domain, t.identities) && Extends(t, u)
    ensures AuthoredBy(a, before, c, domain, u.identities)
  {
  }

  /** The row a comment is saved as, once its author is known. */
  function CommentRow(before: Asset, c: CommentEl, parentId: string, parent: Asset, pre: bool, fmt: Formats,
                      author: Option<PersonId>): Asset
  {
    before.(title := c.subject,
            content := if pre then c.body else fmt.comment(c.body),
            inReplyTo := Some(parentId),
            inThreadOf := Some(ThreadOf(parentId, parent)),
            author := author,
            imported := true,
            privateTo := parent.privateTo)
  }

  lemma CommentRowSaved(before: Asset, c: CommentEl, parentId: string, parent: Asset, fmt: Formats,
                        author: Option<PersonId>, domain: string, identities: map<string, PersonId>)
    requires CommentPreformatted(PropsOf(c.props)).Ok?
    requires c.poster == "" ==> author == before.author
    requires c.poster != "" ==>
      GenerateOpenid(domain, c.poster) in identities && author == Some(identities[GenerateOpenid(domain, c.poster)])
    ensures CommentSaved(CommentRow(before, c, parentId, parent, CommentPreformatted(PropsOf(c.props)).value, fmt, author),
                         before, c, parentId, parent, domain, fmt, identities)
  {
  }

  lemma CommentRowLinked(before: Asset, c: CommentEl, parentId: string, parent: Asset, pre: bool, fmt: Formats,
                         author: Option<PersonId>, t: Rows)
    requires Consistent(t) && parentId in t.assets && parent == t.assets[parentId]
    requires Linked(before, |t.persons|, t.groups, t.assets)
    requires author.Some? ==> author.value < |t.persons|
    ensures Linked(CommentRow(before, c, parentId, parent, pre, fmt, author), |t.persons|, t.groups, t.assets)
  {
  }

  /**
   * The save of one comment: the comment's own row, before its
   * replies.  The save and the assignment of `private_to` that follows it
   * are one write here, as nothing happens between them.
   */
  method SaveComment(blog: Blog, c: CommentEl, parentId: string, domain: string, fmt: Formats)
    returns (res: Result<string>)
    requires blog.Valid() && parentId in blog.assets
    modifies blog
    ensures blog.Valid() && Extends(old(blog.Snapshot()), blog.Snapshot())
    ensures blog.groups == old(blog.groups) && blog.memberships == old(blog.memberships)
    ensures CommentPreformatted(PropsOf(c.props)).Err? ==>
      res == Err(CommentPreformatted(PropsOf(c.props)).failure) && blog.Snapshot() == old(blog.Snapshot())
    ensures CommentPreformatted(PropsOf(c.props)).Ok? ==>
      var id := CommentAtomId(parentId, c.jtalkid);
      && res == Ok(id)
      && id in blog.assets
      && blog.assets == old(blog.assets)[id := blog.assets[id]]
      && CommentSaved(blog.assets[id], Found(old(blog.assets), id), c, parentId, old(blog.assets)[parentId],
                      domain, fmt, blog.identities)
  {
    var id := CommentAtomId(parentId, c.jtalkid);
    var props := PropsDict(c.props);
    var pre := CommentPreformatted(props);
    if pre.Err? {
      ExtendsReflexive(blog.Snapshot());
      return Err(pre.failure);
    }
    var before := Found(blog.assets, id);
    var parent := blog.assets[parentId];
    var author := before.author;
    ghost var t0 := blog.Snapshot();
    if c.poster != "" {
      var p := blog.PersonForOpenid(GenerateOpenid(domain, c.poster), c.poster);
      author := Some(p);
    } else {
      ExtendsReflexive(t0);
    }
    ghost var t1 := blog.Snapshot();
    assert Linked(before, |t0.persons|, t0.groups, t0.assets);
    LinkedGrows(before, t0, t1);
    CommentRowLinked(before, c, parentId, parent, pre.value, fmt, author, t1);
    var row := CommentRow(before, c, parentId, parent, pre.value, fmt, author);
    CommentRowSaved(before, c, parentId, parent, fmt, author, domain, t1.identities);
    blog.SaveAsset(id, row);
    ExtendsTransitive(t0, t1, blog.Snapshot());
    res := Ok(id);
  }

  /**
   * `import_comment`: the comment's row, then its replies in document
   * order.  Only rows under the Atom ids of the comment and its replies are
   * written, and every one of them ends up in the parent's thread with the
   * parent's privacy.
   */
  method ImportComment(blog: Blog, c: CommentEl, parentId: string, domain: string, fmt: Formats)
    returns (res: Result<()>)
    requires blog.Valid() && parentId in blog.assets
    modifies blog
    ensures blog.Valid() && Extends(old(blog.Snapshot()), blog.Snapshot())
    ensures blog.groups == old(blog.groups) && blog.memberships == old(blog.memberships)
    ensures Confined(old(blog.assets), blog.assets, TreeIds(c, parentId))
    ensures res.Ok? ==>
      var id := CommentAtomId(parentId, c.jtalkid);
      && id in blog.assets
      && CommentSaved(blog.assets[id], Found(old(blog.assets), id), c, parentId, old(blog.assets)[parentId],
                      domain, fmt, blog.identities)
    ensures res.Ok? ==>
      Threaded(blog.assets, TreeIds(c, parentId), parentId, ThreadOf(parentId, old(blog.assets)[parentId]),
               old(blog.assets)[parentId].privateTo)
    decreases c
  {
    ghost var t0 := blog.Snapshot();
    var saved := SaveComment(blog, c, parentId, domain, fmt);
    if saved.Err? {
      return Err(saved.failure);
    }
    var id := saved.value;
    ghost var t1 := blog.Snapshot();
    ghost var row := t1.assets[id];
    var r := ImportReplies(blog, c.replies, id, domain, fmt);
    ExtendsTransitive(t0, t1, blog.Snapshot());
    assert id !in ForestIds(c.replies, id);
    assert blog.assets[id] == row;
    AuthoredByKept(row, Found(t0.assets, id), c, domain, t1, blog.Snapshot());
    ConfinedTransitive(t0.assets, t1.assets, blog.assets, {id}, ForestIds(c.replies, id));
    if r.Err? {
      return Err(r.failure);
    }
    ThreadedTree(blog.assets, c, parentId, ThreadOf(parentId, t0.assets[parentId]), t0.assets[parentId].privateTo);
    res := Ok(());
  }

  /** A comment's row and its replies' rows, all in one thread, make its whole tree threaded. */
  lemma ThreadedTree(assets: map<string, Asset>, c: CommentEl, parentId: string, thread: string, privateTo: seq<string>)
    requires var id := CommentAtomId(parentId, c.jtalkid);
      && id in assets
      && assets[id].inThreadOf == Some(thread) && assets[id].privateTo == privateTo
      && assets[id].inReplyTo == Some(parentId)
      && Threaded(assets, ForestIds(c.replies, id), id, thread, privateTo)
    ensures Threaded(assets, TreeIds(c, parentId), parentId, thread, privateTo)
  {
  }

  /** The loop over a comment's (or a post's) `comments/comment` children. */
  method ImportReplies(blog: Blog, cs: seq<CommentEl>, parentId: string, domain: string, fmt: Formats)
    returns (res: Result<()>)
    requires blog.Valid() && parentId in blog.assets
    modifies blog
    ensures blog.Valid() && Extends(old(blog.Snapshot()), blog.Snapshot())
    ensures blog.groups == old(blog.groups) && blog.memberships == old(blog.memberships)
    ensures Confined(old(blog.assets), blog.assets, ForestIds(cs, parentId))
    ensures res.Ok? ==>
      Threaded(blog.assets, ForestIds(cs, parentId), parentId, ThreadOf(parentId, old(blog.assets)[parentId]),
               old(blog.assets)[parentId].privateTo)
    decreases cs
  {
    ghost var parent := blog.assets[parentId];
    ghost var thread := ThreadOf(parentId, parent);
    ExtendsReflexive(blog.Snapshot());
    for i := 0 to |cs|
      invariant blog.Valid() && Extends(old(blog.Snapshot()), blog.Snapshot())
      invariant blog.groups == old(blog.groups) && blog.memberships == old(blog.memberships)
      invariant parentId in blog.assets && blog.assets[parentId] == parent
      invariant Confined(old(blog.assets), blog.assets, ForestIds(cs[..i], parentId))
      invariant Threaded(blog.assets, ForestIds(cs[..i], parentId), parentId, thread, parent.privateTo)
    {
      assert cs[..i + 1][..i] == cs[..i];
      assert ForestIds(cs[..i + 1], parentId) == ForestIds(cs[..i], parentId) + TreeIds(cs[i], parentId);
      ghost var before := blog.Snapshot();
      var r := ImportComment(blog, cs[i], parentId, domain, fmt);
      ExtendsTransitive(old(blog.Snapshot()), before, blog.Snapshot());
      ConfinedTransitive(old(blog.assets), before.assets, blog.assets,
                         ForestIds(cs[..i], parentId), TreeIds(cs[i], parentId));
      if r.Err? {
        ForestIdsPrefix(cs, parentId, i + 1);
        return Err(r.failure);
      }
    }
    assert cs[..|cs|] == cs;
    res := Ok(());
  }

  /**
   * The checks a post passes before it is saved, in the importer's order:
   * a date (the assertion that the post has one), a date `strptime` accepts, and a
   * readable `opt_preformatted`.  On success, the publish time and the flag.
   */
  function EventReady(e: EventEl, fmt: Formats): Result<(Time, bool)>
  {
    if e.date == "" then Err(AssertionFailed("event has no date :("))
    else match fmt.date(e.date)
      case None => Err(BadTime(e.date))
      case Some(t) =>
        match EventPreformatted(PropsOf(e.props))
          case Err(f) => Err(f)
          case Ok(pre) => Ok((t, pre))
  }

  /** A post with no date aborts the import, whatever else it carries. */
  lemma UndatedEventFails(e: EventEl, fmt: Formats)
    requires e.date == ""
    ensures EventReady(e, fmt) == Err(AssertionFailed("event has no date :("))
  {
  }

  /** The row `import_events` saves for post `e`; its privacy is set afterwards. */
  ghost predicate EventSaved(a: Asset, before: Asset, e: EventEl, author: PersonId, fmt: Formats)
  {
    && EventReady(e, fmt).Ok?
    && a.title == e.subject
    && a.author == Some(author)
    && a.published == Some(EventReady(e, fmt).value.0)
    && a.content == fmt.event(e.body, EventReady(e, fmt).value.1)
    && a.imported
    && a.inReplyTo == before.inReplyTo
    && a.inThreadOf == before.inThreadOf
  }

  /** The save of one post: the post's row, found or made by its Atom id and saved. */
  method SaveEvent(blog: Blog, e: EventEl, prefix: string, author: PersonId, fmt: Formats)
    returns (res: Result<string>)
    requires blog.Valid() && author < |blog.persons|
    modifies blog
    ensures blog.Valid() && Extends(old(blog.Snapshot()), blog.Snapshot())
    ensures res.Err? <==> EventReady(e, fmt).Err?
    ensures res.Err? ==> res.failure == EventReady(e, fmt).failure && blog.Snapshot() == old(blog.Snapshot())
    ensures res.Ok? ==>
      var id := PostAtomId(prefix, e.ditemid);
      && res.value == id
      && id in blog.assets
      && blog.Snapshot() == old(blog.Snapshot()).(assets := old(blog.assets)[id := blog.assets[id]])
      && EventSaved(blog.assets[id], Found(old(blog.assets), id), e, author, fmt)
      && blog.assets[id].privateTo == Found(old(blog.assets), id).privateTo
  {
    var id := PostAtomId(prefix, e.ditemid);
    var post := Found(blog.assets, id);
    var props := PropsDict(e.props);
    post := post.(title := e.subject, author := Some(author));
    if e.date == "" {
      ExtendsReflexive(blog.Snapshot());
      return Err(AssertionFailed("event has no date :("));
    }
    var published := fmt.date(e.date);
    if published.None? {
      ExtendsReflexive(blog.Snapshot());
      return Err(BadTime(e.date));
    }
    post := post.(published := published);
    var pre := EventPreformatted(props);
    if pre.Err? {
      ExtendsReflexive(blog.Snapshot());
      return Err(pre.failure);
    }
    post := post.(content := fmt.event(e.body, pre.value), imported := true);
    assert Linked(Found(blog.assets, id), |blog.persons|, blog.groups, blog.assets);
    blog.SaveAsset(id, post);
    res := Ok(id);
  }

  /**
   * The groups a post is private to after its security is applied, given what it was
   * private to before: the private group for 'private', the decoded
   * allowmask for 'usemask', and no change otherwise.
   */
  function Privacy(e: EventEl, groupObjs: map<int, string>, current: seq<string>): Result<seq<string>>
  {
    if e.security == Some("private") then Ok(["private"])
    else if e.security == Some("usemask") then
      if e.allowmask.None? then Err(NoneValue("allowmask"))
      else match ParseInt(e.allowmask.value)
        case None => Err(BadNumber(e.allowmask.value))
        case Some(mask) => Ok(MaskGroups(mask, groupObjs))
    else Ok(current)
  }

  /** A 'usemask' post is private to exactly the imported groups whose bit is set, in ascending id order. */
  lemma UsemaskPrivacy(e: EventEl, groupObjs: map<int, string>, current: seq<string>, mask: int)
    requires e.security == Some("usemask") && e.allowmask == Some(IntToString(mask))
    ensures Privacy(e, groupObjs, current).Ok?
    ensures var ids := MaskIds(mask, 30, groupObjs);
      && |Privacy(e, groupObjs, current).value| == |ids|
      && (forall k | 0 <= k < |ids| :: ids[k] in groupObjs && Privacy(e, groupObjs, current).value[k] == groupObjs[ids[k]])
      && (forall i :: i in ids <==> 1 <= i < 30 && Bit(mask, i) && i in groupObjs)
      && (forall a, b | 0 <= a < b < |ids| :: ids[a] < ids[b])
  {
    IntToStringRoundTrip(mask);
    MaskIdsSpec(mask, 30, groupObjs);
    MaskIdsInGroups(mask, 30, groupObjs);
  }

  /** The privacy a post's security gives it, computed with the allowmask loop. */
  method NewPrivacy(e: EventEl, groupObjs: map<int, string>, current: seq<string>) returns (res: Result<seq<string>>)
    ensures res == Privacy(e, groupObjs, current)
  {
    if e.security == Some("private") {
      return Ok(["private"]);
    } else if e.security == Some("usemask") {
      if e.allowmask.None? {
        return Err(NoneValue("allowmask"));
      }
      var mask := ParseInt(e.allowmask.value);
      if mask.None? {
        return Err(BadNumber(e.allowmask.value));
      }
      var maskGroups := DecodeMask(mask.value, groupObjs);
      return Ok(maskGroups);
    }
    return Ok(current);
  }

  /** A post is only ever made private to Groups that exist. */
  lemma PrivacyInGroups(e: EventEl, groupObjs: map<int, string>, current: seq<string>, groups: map<string, string>)
    requires "private" in groups
    requires forall g | g in groupObjs :: groupObjs[g] in groups
    requires forall k | 0 <= k < |current| :: current[k] in groups
    ensures Privacy(e, groupObjs, current).Ok? ==>
      forall k | 0 <= k < |Privacy(e, groupObjs, current).value| :: Privacy(e, groupObjs, current).value[k] in groups
  {
    if e.security == Some("usemask") && e.allowmask.Some? && ParseInt(e.allowmask.value).Some? {
      var mask := ParseInt(e.allowmask.value).value;
      var ids := MaskIds(mask, 30, groupObjs);
      MaskIdsInGroups(mask, 30, groupObjs);
      forall k | 0 <= k < |ids|
        ensures MaskGroups(mask, groupObjs)[k] in groups
      {
        var g := ids[k];
        assert g in groupObjs;
        assert groupObjs[g] in groups;
      }
    }
  }

  /**
   * Lines 201-225: the lookup of the 'private' Group, which fails for every
   * post when there is none, then the post's new privacy.
   */
  method SetPrivacy(blog: Blog, id: string, e: EventEl, groupObjs: map<int, string>) returns (res: Result<()>)
    requires blog.Valid() && id in blog.assets
    requires forall g | g in groupObjs :: groupObjs[g] in blog.groups
    modifies blog
    ensures blog.Valid() && Extends(old(blog.Snapshot()), blog.Snapshot())
    ensures "private" !in old(blog.groups) ==> res == Err(NotFound("private")) && blog.Snapshot() == old(blog.Snapshot())
    ensures "private" in old(blog.groups) ==>
      var p := Privacy(e, groupObjs, old(blog.assets)[id].privateTo);
      && (p.Err? ==> res == Err(p.failure) && blog.Snapshot() == old(blog.Snapshot()))
      && (p.Ok? ==> res.Ok? && blog.Snapshot() == old(blog.Snapshot()).(assets := old(blog.assets)[id := old(blog.assets)[id].(privateTo := p.value)]))
  {
    ExtendsReflexive(blog.Snapshot());
    if "private" !in blog.groups {
      return Err(NotFound("private"));
    }
    var privateTo := NewPrivacy(e, groupObjs, blog.assets[id].privateTo);
    if privateTo.Err? {
      return Err(privateTo.failure);
    }
    PrivacyInGroups(e, groupObjs, blog.assets[id].privateTo, blog.groups);
    blog.SaveAsset(id, blog.assets[id].(privateTo := privateTo.value));
    res := Ok(());
  }

  /** The Atom ids of a post and of all its comments. */
  function EventIds(e: EventEl, prefix: string): set<string>
  {
    var id := PostAtomId(prefix, e.ditemid);
    {id} + ForestIds(e.comments, id)
  }

  /** One turn of the posts loop: the post, its privacy, then its comments. */
  method ImportEvent(blog: Blog, e: EventEl, prefix: string, author: PersonId, groupObjs: map<int, string>,
                     domain: string, fmt: Formats) returns (res: Result<()>)
    requires blog.Valid() && author < |blog.persons|
    requires forall g | g in groupObjs :: groupObjs[g] in blog.groups
    modifies blog
    ensures blog.Valid() && Extends(old(blog.Snapshot()), blog.Snapshot())
    ensures blog.groups == old(blog.groups) && blog.memberships == old(blog.memberships)
    ensures Confined(old(blog.assets), blog.assets, EventIds(e, prefix))
    ensures EventReady(e, fmt).Err? ==> res == Err(EventReady(e, fmt).failure) && blog.Snapshot() == old(blog.Snapshot())
    ensures EventReady(e, fmt).Ok? && "private" !in old(blog.groups) ==> res == Err(NotFound("private"))
    ensures res.Ok? ==>
      var id := PostAtomId(prefix, e.ditemid);
      var before := Found(old(blog.assets), id);
      && id in blog.assets
      && EventSaved(blog.assets[id], before, e, author, fmt)
      && Privacy(e, groupObjs, before.privateTo) == Ok(blog.assets[id].privateTo)
      && Threaded(blog.assets, ForestIds(e.comments, id), id, ThreadOf(id, blog.assets[id]), blog.assets[id].privateTo)
    ensures res.Ok? ==>
      var id := PostAtomId(prefix, e.ditemid);
      Found(old(blog.assets), id).inThreadOf == None ==>
        Threaded(blog.assets, ForestIds(e.comments, id), id, id, blog.assets[id].privateTo)
  {
    ghost var t0 := blog.Snapshot();
    var saved := SaveEvent(blog, e, prefix, author, fmt);
    if saved.Err? {
      return Err(saved.failure);
    }
    var id := saved.value;
    ghost var t1 := blog.Snapshot();
    var r := SetPrivacy(blog, id, e, groupObjs);
    ExtendsTransitive(t0, t1, blog.Snapshot());
    if r.Err? {
      return Err(r.failure);
    }
    ghost var t2 := blog.Snapshot();
    ghost var post := t2.assets[id];
    r := ImportReplies(blog, e.comments, id, domain, fmt);
    ExtendsTransitive(t0, t2, blog.Snapshot());
    assert id !in ForestIds(e.comments, id);
    assert blog.assets[id] == post;
    if r.Err? {
      return Err(r.failure);
    }
    res := Ok(());
  }

  /** An `<livejournal>` export: the owner, the server, friend groups, friends and posts. */
  datatype Export = Export(
    username: string,
    server: string,
    groups: seq<GroupEl>,
    friends: seq<FriendEl>,
    events: seq<EventEl>)

  /** The Atom id prefix: the one given, or the default for the export's owner and server. */
  function AtomPrefix(x: Export, atomidPrefix: Option<string>): string
  {
    if atomidPrefix.Some? then atomidPrefix.value else DefaultAtomPrefix(ServerDomain(x.server), x.username)
  }

  /** The Atom ids of all posts and comments of the first events. */
  function ExportIds(events: seq<EventEl>, prefix: string): set<string>
  {
    if events == [] then {} else ExportIds(events[..|events| - 1], prefix) + EventIds(events[|events| - 1], prefix)
  }

  lemma {:induction false} ExportIdsPrefix(events: seq<EventEl>, prefix: string, n: nat)
    requires n <= |events|
    ensures ExportIds(events[..n], prefix) <= ExportIds(events, prefix)
    decreases |events|
  {
    if n < |events| {
      var init := events[..|events| - 1];
      ExportIdsPrefix(init, prefix, n);
      assert init[..n] == events[..n];
    } else {
      assert events[..n] == events;
    }
  }

  /** The posts loop, over every post of the export. */
  method ImportPosts(blog: Blog, events: seq<EventEl>, prefix: string, author: PersonId, groupObjs: map<int, string>,
                     domain: string, fmt: Formats) returns (res: Result<()>)
    requires blog.Valid() && author < |blog.persons|
    requires forall g | g in groupObjs :: groupObjs[g] in blog.groups
    modifies blog
    ensures blog.Valid() && Extends(old(blog.Snapshot()), blog.Snapshot())
    ensures Confined(old(blog.assets), blog.assets, ExportIds(events, prefix))
    ensures res.Ok? ==> forall i | 0 <= i < |events| :: PostAtomId(prefix, events[i].ditemid) in blog.assets
  {
    ExtendsReflexive(blog.Snapshot());
    for i := 0 to |events|
      invariant blog.Valid() && Extends(old(blog.Snapshot()), blog.Snapshot())
      invariant blog.groups == old(blog.groups)
      invariant Confined(old(blog.assets), blog.assets, ExportIds(events[..i], prefix))
      invariant forall j | 0 <= j < i :: PostAtomId(prefix, events[j].ditemid) in blog.assets
    {
      assert events[..i + 1][..i] == events[..i];
      ghost var before := blog.Snapshot();
      var r := ImportEvent(blog, events[i], prefix, author, groupObjs, domain, fmt);
      ExtendsTransitive(old(blog.Snapshot()), before, blog.Snapshot());
      ConfinedTransitive(old(blog.assets), before.assets, blog.assets,
                         ExportIds(events[..i], prefix), EventIds(events[i], prefix));
      if r.Err? {
        ExportIdsPrefix(events, prefix, i + 1);
        return Err(r.failure);
      }
      forall j | 0 <= j <= i
        ensures PostAtomId(prefix, events[j].ditemid) in blog.assets
      {
        if j < i {
          assert PostAtomId(prefix, events[j].ditemid) in before.assets;
        }
      }
    }
    assert events[..|events|] == events;
    res := Ok(());
  }

  /**
   * `import_events`: the owner's Person, the friend groups, the friends,
   * then every post with its comments.  No Asset outside the export's Atom
   * ids is touched; on success every friend has a Person and every post is
   * stored.
   */
  method ImportEvents(blog: Blog, x: Export, atomidPrefix: Option<string>, fmt: Formats) returns (res: Result<()>)
    requires blog.Valid()
    modifies blog
    ensures blog.Valid() && Extends(old(blog.Snapshot()), blog.Snapshot())
    ensures GenerateOpenid(ServerDomain(x.server), x.username) in blog.identities
    ensures Confined(old(blog.assets), blog.assets, ExportIds(x.events, AtomPrefix(x, atomidPrefix)))
    ensures res.Ok? ==>
      forall i | 0 <= i < |x.friends| :: GenerateOpenid(ServerDomain(x.server), x.friends[i].username) in blog.identities
    ensures res.Ok? ==>
      forall i | 0 <= i < |x.events| :: PostAtomId(AtomPrefix(x, atomidPrefix), x.events[i].ditemid) in blog.assets
  {
    var domain := ServerDomain(x.server);
    var prefix := if atomidPrefix.Some? then atomidPrefix.value else DefaultAtomPrefix(domain, x.username);
    var owner := GenerateOpenid(domain, x.username);
    var postAuthor := blog.PersonForOpenid(owner, x.username);
    ghost var t0 := blog.Snapshot();
    var groupObjs := ImportGroups(blog, prefix, x.groups);
    ExtendsTransitive(old(blog.Snapshot()), t0, blog.Snapshot());
    if groupObjs.Err? {
      return Err(groupObjs.failure);
    }
    ghost var t1 := blog.Snapshot();
    var r := ImportFriends(blog, domain, x.friends, groupObjs.value);
    ExtendsTransitive(old(blog.Snapshot()), t1, blog.Snapshot());
    if r.Err? {
      return Err(r.failure);
    }
    ghost var t2 := blog.Snapshot();
    assert forall i | 0 <= i < |x.friends| :: GenerateOpenid(domain, x.friends[i].username) in t2.identities;
    r := ImportPosts(blog, x.events, prefix, postAuthor, groupObjs.value, domain, fmt);
    ExtendsTransitive(old(blog.Snapshot()), t2, blog.Snapshot());
    res := r;
  }
}

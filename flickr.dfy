/**
 * The Flickr poller: the signed REST query, the Account for a Flickr user
 * id (fetched only when it is not stored yet), the photo url, and the
 * poll that stores each contact photo once and records it in the user's
 * stream.
 */
module Flickr {
  import opened Text
  import opened Entities
  import opened Storage

  const Service := "flickr.com"

  /** A REST query: parameter names and their values as `str()` renders them. */
  type Query = map<string, string>

  /** The `person` member of a `flickr.people.getInfo` answer; `realname` is absent when the user has none. */
  datatype PersonData = PersonData(iconfarm: nat, iconserver: string, realname: Option<string>, profileurl: string)

  /** One entry of the `photos` member of a `flickr.photos.getContactsPhotos` answer. */
  datatype PhotoData = PhotoData(id: string, owner: string, title: string, farm: nat, server: string, secret: string)

  datatype Payload = PersonInfo(person: PersonData) | PhotoList(photos: seq<PhotoData>) | NoPayload

  /** The HTTP status and the decoded JSON document of one REST call. */
  datatype Response = Response(status: nat, stat: Option<string>, message: string, payload: Payload)

  /**
   * The REST endpoint as seen by the poller: the application's key and
   * shared secret, MD5 (as a hex digest), and the answer the service gives
   * to a query.  `sent` is every query requested so far, in order.
   */
  class FlickrClient {
    const apiKey: string
    const secret: string
    const md5: string -> string
    const respond: Query -> Response
    var sent: seq<Query>

    constructor (apiKey: string, secret: string, md5: string -> string, respond: Query -> Response)
      ensures this.apiKey == apiKey && this.secret == secret && this.md5 == md5 && this.respond == respond
      ensures sent == []
    {
      this.apiKey, this.secret, this.md5, this.respond := apiKey, secret, md5, respond;
      sent := [];
    }

    /** One HTTP request: it is logged, and the service's answer returned. */
    method Send(q: Query) returns (r: Response)
      modifies this
      ensures sent == old(sent) + [q]
      ensures r == respond(q)
    {
      sent := sent + [q];
      r := respond(q);
    }
  }

  // ---------------------------------------------------------------------
  // Python's ordering of strings

  /** `a < b` on strings: character by character, a proper prefix first. */
  predicate Below(a: string, b: string)
    decreases |a|
  {
    |b| > 0 && (|a| == 0 || a[0] < b[0] || (a[0] == b[0] && Below(a[1..], b[1..])))
  }

  lemma {:induction false} BelowAsymmetric(a: string, b: string)
    requires Below(a, b)
    ensures !Below(b, a) && a != b
    decreases |a|
  {
    if |a| > 0 && a[0] == b[0] && Below(a[1..], b[1..]) {
      BelowAsymmetric(a[1..], b[1..]);
    }
  }

  lemma {:induction false} BelowTransitive(a: string, b: string, c: string)
    requires Below(a, b) && Below(b, c)
    ensures Below(a, c)
    decreases |a|
  {
    if |a| > 0 && a[0] == b[0] && b[0] == c[0] {
      BelowTransitive(a[1..], b[1..], c[1..]);
    }
  }

  lemma {:induction false} BelowTotal(a: string, b: string)
    requires a != b
    ensures Below(a, b) || Below(b, a)
    decreases |a|
  {
    if |a| > 0 && |b| > 0 && a[0] == b[0] {
      assert a[1..] != b[1..] by {
        assert a == [a[0]] + a[1..] && b == [b[0]] + b[1..];
      }
      BelowTotal(a[1..], b[1..]);
    }
  }

  /** `k` comes before every other member of `ks`. */
  predicate IsLeast(k: string, ks: set<string>)
  {
    k in ks && forall j | j in ks && j != k :: Below(k, j)
  }

  lemma {:induction false} LeastExists(ks: set<string>)
    requires ks != {}
    ensures exists k :: IsLeast(k, ks)
    decreases |ks|
  {
    var x :| x in ks;
    var rest := ks - {x};
    if rest == {} {
      assert ks == {x};
      assert IsLeast(x, ks);
    } else {
      LeastExists(rest);
      var m :| IsLeast(m, rest);
      if Below(x, m) {
        forall j | j in ks && j != x
          ensures Below(x, j)
        {
          if j != m {
            BelowTransitive(x, m, j);
          }
        }
        assert IsLeast(x, ks);
      } else {
        BelowTotal(x, m);
        assert IsLeast(m, ks);
      }
    }
  }

  lemma LeastUnique(ks: set<string>)
    ensures forall k1, k2 | IsLeast(k1, ks) && IsLeast(k2, ks) :: k1 == k2
  {
    forall k1, k2 | IsLeast(k1, ks) && IsLeast(k2, ks)
      ensures k1 == k2
    {
      if k1 != k2 {
        BelowAsymmetric(k1, k2);
      }
    }
  }

  /** `sorted(keys)`: the least key first, then the rest in the same way. */
  function SortedKeys(ks: set<string>): seq<string>
    decreases |ks|
  {
    if ks == {} then []
    else
      LeastExists(ks);
      LeastUnique(ks);
      var k :| IsLeast(k, ks);
      [k] + SortedKeys(ks - {k})
  }

  /** `sorted(keys)` holds every key once, in ascending order. */
  lemma {:induction false} SortedKeysSpec(ks: set<string>)
    ensures |SortedKeys(ks)| == |ks|
    ensures forall i | 0 <= i < |SortedKeys(ks)| :: SortedKeys(ks)[i] in ks
    ensures forall k | k in ks :: k in SortedKeys(ks)
    ensures forall i, j | 0 <= i < j < |SortedKeys(ks)| :: Below(SortedKeys(ks)[i], SortedKeys(ks)[j])
    decreases |ks|
  {
    if ks != {} {
      LeastExists(ks);
      LeastUnique(ks);
      var k :| IsLeast(k, ks);
      var rest := SortedKeys(ks - {k});
      SortedKeysSpec(ks - {k});
      assert SortedKeys(ks) == [k] + rest;
      assert forall i | 0 <= i < |rest| :: Below(k, rest[i]);
    }
  }

  // ---------------------------------------------------------------------
  // sign_flickr_query and call_flickr

  /** `''.join(k + v for k, v in items)` over the given keys. */
  function Pieces(q: Query, keys: seq<string>): string
    requires forall k | k in keys :: k in q
  {
    if keys == [] then "" else keys[0] + q[keys[0]] + Pieces(q, keys[1..])
  }

  /** The string that is signed: each name followed by its value, names in ascending order. */
  function SignBase(q: Query): string
  {
    SortedKeysSpec(q.Keys);
    Pieces(q, SortedKeys(q.Keys))
  }

  /** The first name in order comes first in the sign base. */
  lemma SignBaseLeastFirst(q: Query, k: string)
    requires IsLeast(k, q.Keys)
    ensures SignBase(q) == k + q[k] + SignBase(q - {k})
  {
    var keys := SortedKeys(q.Keys);
    SortedKeysSpec(q.Keys);
    SortedKeysSpec((q - {k}).Keys);
    LeastOfSorted(keys, q.Keys);
    LeastUnique(q.Keys);
    SortedKeysUnique(keys[1..], SortedKeys((q - {k}).Keys));
    PiecesRestrict(q, q - {k}, keys[1..]);
  }

  /** Two ascending lists of the same names are the same list. */
  lemma {:induction false} SortedKeysUnique(a: seq<string>, b: seq<string>)
    requires forall i, j | 0 <= i < j < |a| :: Below(a[i], a[j])
    requires forall i, j | 0 <= i < j < |b| :: Below(b[i], b[j])
    requires forall k :: k in a <==> k in b
    ensures a == b
    decreases |a|
  {
    var names := set k | k in a;
    assert names == set k | k in b;
    assert a != [] ==> a[0] in names;
    assert b != [] ==> b[0] in names;
    if a != [] {
      LeastOfSorted(a, names);
      LeastOfSorted(b, names);
      LeastUnique(names);
      forall k ensures k in a[1..] <==> k in b[1..]
      {
        if k in a[1..] {
          TailMember(a, b, k);
        }
        if k in b[1..] {
          TailMember(b, a, k);
        }
      }
      SortedKeysUnique(a[1..], b[1..]);
      assert a == [a[0]] + a[1..] && b == [b[0]] + b[1..];
    }
  }

  /** A name after the head of one ascending list comes after the head of the other, equal-headed one. */
  lemma TailMember(a: seq<string>, b: seq<string>, k: string)
    requires a != [] && b != [] && a[0] == b[0]
    requires forall i, j | 0 <= i < j < |a| :: Below(a[i], a[j])
    requires forall k :: k in a <==> k in b
    requires k in a[1..]
    ensures k in b[1..]
  {
    var i :| 0 <= i < |a[1..]| && a[1..][i] == k;
    assert a[i + 1] == k;
    BelowAsymmetric(a[0], a[i + 1]);
    assert k in b;
    var j :| 0 <= j < |b| && b[j] == k;
    assert j != 0;
    assert b[1..][j - 1] == k;
  }

  /** The head of an ascending list is the least of its names. */
  lemma LeastOfSorted(a: seq<string>, names: set<string>)
    requires a != [] && forall i, j | 0 <= i < j < |a| :: Below(a[i], a[j])
    requires forall k :: k in a <==> k in names
    ensures IsLeast(a[0], names)
  {
    forall j | j in names && j != a[0]
      ensures Below(a[0], j)
    {
      var i :| 0 <= i < |a| && a[i] == j;
    }
  }

  lemma {:induction false} PiecesRestrict(q: Query, r: Query, keys: seq<string>)
    requires forall k | k in keys :: k in q && k in r && q[k] == r[k]
    ensures Pieces(q, keys) == Pieces(r, keys)
    decreases |keys|
  {
    if keys != [] {
      PiecesRestrict(q, r, keys[1..]);
    }
  }

  /**
   * `sign_flickr_query`: the query gains `api_sig`, the MD5 digest of the
   * shared secret followed by the sign base; nothing else changes.
   */
  method SignFlickrQuery(client: FlickrClient, query: Query) returns (signed: Query)
    ensures signed.Keys == query.Keys + {"api_sig"}
    ensures forall k | k in query && k != "api_sig" :: signed[k] == query[k]
    ensures signed["api_sig"] == client.md5(client.secret + SignBase(query))
  {
    var base := SignBase(query);
    signed := query["api_sig" := client.md5(client.secret + base)];
  }

  /** The parameters every call carries, whatever its arguments. */
  const FixedKeys: set<string> := {"api_key", "method", "format", "nojsoncallback"}

  /**
   * The query of `call_flickr` before signing: the arguments, with the
   * application key, the method name, the JSON format and the no-callback
   * flag written over any argument of the same name.
   */
  function UnsignedQuery(apiKey: string, name: string, kwargs: Query): (q: Query)
    ensures q.Keys == kwargs.Keys + FixedKeys
    ensures q["api_key"] == apiKey && q["method"] == name && q["format"] == "json" && q["nojsoncallback"] == "1"
    ensures forall k | k in kwargs && k !in FixedKeys :: q[k] == kwargs[k]
  {
    kwargs["api_key" := apiKey]["method" := name]["format" := "json"]["nojsoncallback" := "1"]
  }

  /** The query names `method` and carries `value` for `param`. */
  predicate Requested(q: Query, name: string, param: string, value: string)
  {
    "method" in q && q["method"] == name && param in q && q[param] == value
  }

  /**
   * `call_flickr`: one request, for the unsigned query or, when asked, for
   * that query signed after the fixed parameters are in.  A non-200 status
   * or an answer whose `stat` is not "ok" is an error.
   */
  method CallFlickr(client: FlickrClient, name: string, sign: bool, kwargs: Query) returns (res: Result<Payload>)
    modifies client
    ensures |client.sent| == |old(client.sent)| + 1 && old(client.sent) <= client.sent
    ensures var u := UnsignedQuery(client.apiKey, name, kwargs);
            client.sent[|old(client.sent)|] ==
              if sign then u["api_sig" := client.md5(client.secret + SignBase(u))] else u
    ensures var r := client.respond(client.sent[|old(client.sent)|]);
            && (r.status != 200 ==> res == Err(HttpStatus(r.status)))
            && (r.status == 200 && r.stat != Some("ok") ==> res == Err(ServiceError(r.message)))
            && (r.status == 200 && r.stat == Some("ok") ==> res == Ok(r.payload))
  {
    var query := kwargs;
    query := query["api_key" := client.apiKey];
    query := query["method" := name];
    query := query["format" := "json"];
    query := query["nojsoncallback" := "1"];
    if sign {
      query := SignFlickrQuery(client, query);
    }
    var r := client.Send(query);
    if r.status != 200 {
      return Err(HttpStatus(r.status));
    }
    if r.stat != Some("ok") {
      return Err(ServiceError(r.message));
    }
    res := Ok(r.payload);
  }

  // ---------------------------------------------------------------------
  // account_for_flickr_id

  function FlickrUserKey(nsid: string): AccountKey
  {
    AccountKey(Service, nsid)
  }

  /** The buddy icon url: farm, server and user id. */
  function BuddyIcon(data: PersonData, nsid: string): string
  {
    "http://farm" + NatToString(data.iconfarm) + ".static.flickr.com/" + data.iconserver + "/buddyicons/" + nsid + ".jpg"
  }

  /** The Account's name: the real name when there is a non-empty one, else the user id. */
  function FlickrDisplayName(data: PersonData, nsid: string): (name: string)
    ensures data.realname.Some? && data.realname.value != "" ==> name == data.realname.value
    ensures data.realname.None? || data.realname.value == "" ==> name == nsid
    ensures name != "" || nsid == ""
  {
    if data.realname.Some? && data.realname.value != "" then data.realname.value else nsid
  }

  /**
   * The store side of `account_for_flickr_id` once the user's data is
   * fetched.  Without a given Person one is created, its avatar a 48x48
   * buddy icon unless the icon farm is 0; the real name is required for it.
   * Then the Account is created.
   */
  method NewFlickrAccount(store: Store, nsid: string, data: PersonData, person: Option<PersonId>)
    returns (res: Result<AccountKey>)
    requires store.Valid() && FlickrUserKey(nsid) !in store.accounts
    requires person.Some? ==> person.value < |store.persons|
    modifies store
    ensures store.Valid() && store.rank == old(store.rank)
    ensures RowsKept(old(store.Snapshot()), store.Snapshot())
    ensures store.objects == old(store.objects) && store.stream == old(store.stream) && store.replies == old(store.replies)
    ensures person.Some? ==>
              && res == Ok(FlickrUserKey(nsid))
              && store.Snapshot() == old(store.Snapshot()).(accounts := old(store.accounts)[
                   FlickrUserKey(nsid) := Account(FlickrDisplayName(data, nsid), person.value, None)])
    ensures person.None? && data.realname.None? ==>
              && res == Err(MissingKey("realname"))
              && store.Snapshot() == old(store.Snapshot()).(media := old(store.media) +
                   (if data.iconfarm == 0 then [] else [Media(BuddyIcon(data, nsid), 48, 48)]))
    ensures person.None? && data.realname.Some? ==>
              && res == Ok(FlickrUserKey(nsid))
              && store.Snapshot() == old(store.Snapshot()).(
                   media := old(store.media) + (if data.iconfarm == 0 then [] else [Media(BuddyIcon(data, nsid), 48, 48)]),
                   persons := old(store.persons) + [Person(data.realname.value, data.profileurl,
                                (if data.iconfarm == 0 then None else Some(|old(store.media)|)), None)],
                   accounts := old(store.accounts)[
                     FlickrUserKey(nsid) := Account(FlickrDisplayName(data, nsid), |old(store.persons)|, None)])
  {
    RowsKeptReflexive(store.Snapshot());
    var owner: PersonId;
    if person.None? {
      var avatar: Option<MediaId> := None;
      if data.iconfarm != 0 {
        var id := store.AddMedia(Media(BuddyIcon(data, nsid), 48, 48));
        avatar := Some(id);
      }
      if data.realname.None? {
        return Err(MissingKey("realname"));
      }
      ghost var withAvatar := store.Snapshot();
      owner := store.AddPerson(Person(data.realname.value, data.profileurl, avatar, None));
      RowsKeptTransitive(old(store.Snapshot()), withAvatar, store.Snapshot());
    } else {
      owner := person.value;
    }
    ghost var withPerson := store.Snapshot();
    store.AddAccount(FlickrUserKey(nsid), Account(FlickrDisplayName(data, nsid), owner, None));
    RowsKeptTransitive(old(store.Snapshot()), withPerson, store.Snapshot());
    res := Ok(FlickrUserKey(nsid));
  }

  /** The `flickr.people.getInfo` query for a user id, as `call_flickr` sends it unsigned. */
  function InfoQuery(client: FlickrClient, nsid: string): Query
  {
    UnsignedQuery(client.apiKey, "flickr.people.getInfo", map["user_id" := nsid])
  }

  /**
   * `account_for_flickr_id` can give the Account: it is stored already, or
   * the service answers the user's getInfo with a person, which has a real
   * name whenever a new Person must be made from it.
   */
  predicate AccountReady(accounts: map<AccountKey, Account>, client: FlickrClient, nsid: string, person: Option<PersonId>)
  {
    || FlickrUserKey(nsid) in accounts
    || var r := client.respond(InfoQuery(client, nsid));
       && r.status == 200 && r.stat == Some("ok") && r.payload.PersonInfo?
       && (person.Some? || r.payload.person.realname.Some?)
  }

  /**
   * `account_for_flickr_id`: a stored Account is returned with no request
   * at all.  Otherwise one `flickr.people.getInfo` request for the id is
   * sent, and the Account is built from its answer.
   */
  method AccountForFlickrId(store: Store, client: FlickrClient, nsid: string, person: Option<PersonId>)
    returns (res: Result<AccountKey>)
    requires store.Valid()
    requires person.Some? ==> person.value < |store.persons|
    modifies store, client
    ensures store.Valid() && store.rank == old(store.rank)
    ensures RowsKept(old(store.Snapshot()), store.Snapshot())
    ensures store.objects == old(store.objects) && store.stream == old(store.stream) && store.replies == old(store.replies)
    ensures res.Ok? ==> res.value == FlickrUserKey(nsid) && res.value in store.accounts
    ensures res.Ok? <==> AccountReady(old(store.accounts), client, nsid, person)
    ensures res.Err? ==> store.accounts == old(store.accounts)
    ensures FlickrUserKey(nsid) in old(store.accounts) ==>
              && res == Ok(FlickrUserKey(nsid))
              && store.Snapshot() == old(store.Snapshot())
              && client.sent == old(client.sent)
    ensures old(client.sent) <= client.sent
    ensures FlickrUserKey(nsid) !in old(store.accounts) ==>
              && |client.sent| == |old(client.sent)| + 1
              && Requested(client.sent[|old(client.sent)|], "flickr.people.getInfo", "user_id", nsid)
    ensures FlickrUserKey(nsid) !in old(store.accounts) && res.Ok? ==>
              && client.respond(client.sent[|old(client.sent)|]).payload.PersonInfo?
              && store.accounts[FlickrUserKey(nsid)].displayName ==
                   FlickrDisplayName(client.respond(client.sent[|old(client.sent)|]).payload.person, nsid)
  {
    RowsKeptReflexive(store.Snapshot());
    var key := FlickrUserKey(nsid);
    if key in store.accounts {
      return Ok(key);
    }
    var result := CallFlickr(client, "flickr.people.getInfo", false, map["user_id" := nsid]);
    if result.Err? {
      return Err(result.failure);
    }
    if !result.value.PersonInfo? {
      return Err(MissingKey("person"));
    }
    res := NewFlickrAccount(store, nsid, result.value.person, person);
  }

  // ---------------------------------------------------------------------
  // photo_url_for_photo

  /** `photo_url_for_photo`: the large ("_b") rendition on the photo's farm and server. */
  function PhotoUrl(p: PhotoData): string
  {
    "http://farm" + NatToString(p.farm) + ".static.flickr.com/" + p.server + "/" + p.id + "_" + p.secret + "_b.jpg"
  }

  /**
   * The url's path segments give the farm host, the server and the file
   * name back, whenever the server, id and secret have no '/' in them.
   */
  lemma PhotoUrlSegments(p: PhotoData)
    requires '/' !in p.server && '/' !in p.id && '/' !in p.secret
    ensures Split(PhotoUrl(p), '/') ==
              ["http:", "", "farm" + NatToString(p.farm) + ".static.flickr.com", p.server, p.id + "_" + p.secret + "_b.jpg"]
  {
    var farm := NatToString(p.farm);
    assert '/' !in farm by {
      forall i | 0 <= i < |farm| ensures farm[i] != '/' { assert IsDigit(farm[i]); }
    }
    PhotoUrlRegrouped(p);
    SplitFive("http:", "", "farm" + farm + ".static.flickr.com", p.server, p.id + "_" + p.secret + "_b.jpg");
  }

  /** The photo url, grouped from the right around its four separators. */
  lemma PhotoUrlRegrouped(p: PhotoData)
    ensures var host := "farm" + NatToString(p.farm) + ".static.flickr.com";
            var file := p.id + "_" + p.secret + "_b.jpg";
            PhotoUrl(p) == "http:" + "/" + ("" + "/" + (host + "/" + (p.server + "/" + file)))
  {
    var farm := NatToString(p.farm);
    var file := p.id + "_" + p.secret + "_b.jpg";
    var front := "http://farm" + farm + ".static.flickr.com/" + p.server + "/";
    Assoc3(front + p.id + "_", p.secret, "_b.jpg");
    Assoc3(front + p.id, "_", p.secret + "_b.jpg");
    Assoc3(front, p.id, "_" + p.secret + "_b.jpg");
    assert PhotoUrl(p) == front + file;
    Assoc3("http://farm" + farm + ".static.flickr.com/" + p.server, "/", file);
    Assoc3("http://farm" + farm + ".static.flickr.com/", p.server, "/" + file);
    UrlLiterals();
  }

  /** A proof step for `PhotoUrlRegrouped`: the url's constant parts, cut at their separators. */
  lemma UrlLiterals()
    ensures "http://farm" == "http:" + "/" + "" + "/" + "farm"
    ensures ".static.flickr.com/" == ".static.flickr.com" + "/"
  {
  }

  /** A proof step for `PhotoUrlRegrouped`: regrouping the url's concatenation. */
  lemma Assoc3(a: string, b: string, c: string)
    ensures a + b + c == a + (b + c)
  {
  }

  /** Splitting five separator-free segments joined by '/'. */
  lemma SplitFive(a: string, b: string, c: string, d: string, e: string)
    requires '/' !in a && '/' !in b && '/' !in c && '/' !in d && '/' !in e
    ensures Split(a + "/" + (b + "/" + (c + "/" + (d + "/" + e))), '/') == [a, b, c, d, e]
  {
    var de := d + "/" + e;
    var cde := c + "/" + de;
    var bcde := b + "/" + cde;
    SplitNoSeparator(e, '/');
    SplitAtFirst(d, '/', e);
    assert Split(de, '/') == [d, e];
    SplitAtFirst(c, '/', de);
    assert Split(cde, '/') == [c, d, e];
    SplitAtFirst(b, '/', cde);
    assert Split(bcde, '/') == [b, c, d, e];
    SplitAtFirst(a, '/', bcde);
  }

  // ---------------------------------------------------------------------
  // poll_flickr

  function PhotoKey(p: PhotoData): ObjKey
  {
    ObjKey(Service, p.id)
  }

  /** The photo's page: owner and id. */
  function PhotoPermalink(p: PhotoData): string
  {
    "http://www.flickr.com/photos/" + p.owner + "/" + p.id + "/"
  }

  /** The photo Object saved for a photo not stored yet: titled, with its page, by its owner's Account. */
  function PhotoObj(photo: PhotoData): Obj
  {
    Obj(Photo, Some(photo.title), None, None, Some(PhotoPermalink(photo)), FlickrUserKey(photo.owner), None, None)
  }

  /**
   * One photo can be stored: its Object is there already, or its owner's
   * Account can be given.
   */
  predicate PhotoReady(objects: map<ObjKey, Obj>, accounts: map<AccountKey, Account>, client: FlickrClient, photo: PhotoData)
  {
    PhotoKey(photo) in objects || AccountReady(accounts, client, photo.owner, None)
  }

  /** Readiness survives rows being added. */
  lemma PhotoReadyKept(a: Tables, b: Tables, client: FlickrClient, photo: PhotoData)
    requires RowsKept(a, b)
    requires PhotoReady(a.objects, a.accounts, client, photo)
    ensures PhotoReady(b.objects, b.accounts, client, photo)
  {
  }

  /**
   * The Object part of one photo: a stored Object is reused with nothing
   * fetched; otherwise the owner's Account is found or created and the
   * photo Object saved.
   */
  method StorePhoto(store: Store, client: FlickrClient, photo: PhotoData) returns (res: Result<ObjKey>)
    requires store.Valid()
    modifies store, client
    ensures store.Valid()
    ensures RowsKept(old(store.Snapshot()), store.Snapshot())
    ensures store.stream == old(store.stream) && store.replies == old(store.replies)
    ensures old(client.sent) <= client.sent
    ensures PhotoKey(photo) in old(store.objects) ==>
              res == Ok(PhotoKey(photo)) && client.sent == old(client.sent) && store.objects == old(store.objects)
    ensures res.Ok? ==> res.value == PhotoKey(photo) && PhotoKey(photo) in store.objects
    ensures res.Ok? && PhotoKey(photo) !in old(store.objects) ==>
              store.objects == old(store.objects)[PhotoKey(photo) := PhotoObj(photo)]
    ensures res.Ok? <==> PhotoReady(old(store.objects), old(store.accounts), client, photo)
    ensures res.Err? ==> store.objects == old(store.objects) && store.accounts == old(store.accounts)
  {
    var key := PhotoKey(photo);
    if key in store.objects {
      RowsKeptReflexive(store.Snapshot());
      return Ok(key);
    }
    res := SaveNewPhoto(store, client, photo);
  }

  /** A photo not stored yet: its owner's Account, then the photo Object. */
  method SaveNewPhoto(store: Store, client: FlickrClient, photo: PhotoData) returns (res: Result<ObjKey>)
    requires store.Valid() && PhotoKey(photo) !in store.objects
    modifies store, client
    ensures store.Valid()
    ensures RowsKept(old(store.Snapshot()), store.Snapshot())
    ensures store.stream == old(store.stream) && store.replies == old(store.replies)
    ensures old(client.sent) <= client.sent
    ensures res.Ok? ==> res == Ok(PhotoKey(photo)) && store.objects == old(store.objects)[PhotoKey(photo) := PhotoObj(photo)]
    ensures res.Ok? <==> AccountReady(old(store.accounts), client, photo.owner, None)
    ensures res.Err? ==> store.objects == old(store.objects) && store.accounts == old(store.accounts)
  {
    var author := AccountForFlickrId(store, client, photo.owner, None);
    if author.Err? {
      return Err(author.failure);
    }
    ghost var withAuthor := store.Snapshot();
    var saved := store.InsertObject(PhotoKey(photo),
      Obj(Photo, Some(photo.title), None, None, Some(PhotoPermalink(photo)), author.value, None, None));
    RowsKeptTransitive(old(store.Snapshot()), withAuthor, store.Snapshot());
    res := Ok(PhotoKey(photo));
  }

  /**
   * The photo's Object is stored, and the user's stream has a row on it:
   * the row that was there, or a new post row by the Object's author at the
   * Object's time.
   */
  ghost predicate PhotoRecorded(store: Store, user: UserId, photo: PhotoData, stream0: map<StreamKey, StreamEntry>)
    reads store
  {
    && PhotoKey(photo) in store.objects
    && (StreamKey(user, PhotoKey(photo)) in stream0 ==> store.stream == stream0)
    && (StreamKey(user, PhotoKey(photo)) !in stream0 ==>
          store.stream == stream0[StreamKey(user, PhotoKey(photo)) :=
            StreamEntry(store.objects[PhotoKey(photo)].author, Post, store.objects[PhotoKey(photo)].time)])
  }

  /**
   * One photo of the poll: its Object, then the get-or-create of the
   * UserStream row on it with verb post.
   */
  method ProjectPhoto(store: Store, client: FlickrClient, user: UserId, photo: PhotoData) returns (res: Result<ObjKey>)
    requires store.Valid()
    modifies store, client
    ensures store.Valid()
    ensures RowsKept(old(store.Snapshot()), store.Snapshot()) && StreamsKept(old(store.Snapshot()), store.Snapshot())
    ensures old(client.sent) <= client.sent
    ensures res.Ok? ==> res.value == PhotoKey(photo) && PhotoRecorded(store, user, photo, old(store.stream))
    ensures res.Ok? ==> StreamKey(user, PhotoKey(photo)) in store.stream
    ensures res.Ok? <==> PhotoReady(old(store.objects), old(store.accounts), client, photo)
    ensures res.Err? ==> !PhotoReady(store.objects, store.accounts, client, photo)
  {
    res := StorePhoto(store, client, photo);
    if res.Err? {
      RowsKeptReflexive(store.Snapshot());
      return;
    }
    ghost var withObj := store.Snapshot();
    var obj := store.objects[res.value];
    store.EnsureStream(StreamKey(user, res.value), StreamEntry(obj.author, Post, obj.time));
    RowsKeptTransitive(old(store.Snapshot()), withObj, store.Snapshot());
  }

  /** The UserStream keys of the given photos. */
  function PhotoStreamKeys(user: UserId, photos: seq<PhotoData>): set<StreamKey>
  {
    if photos == [] then {}
    else PhotoStreamKeys(user, photos[..|photos| - 1]) + {StreamKey(user, PhotoKey(photos[|photos| - 1]))}
  }

  /** A proof step for the photo loop: one more photo adds its own stream key. */
  lemma PhotoStreamKeysStep(user: UserId, photos: seq<PhotoData>, i: nat)
    requires i < |photos|
    ensures PhotoStreamKeys(user, photos[..i + 1]) == PhotoStreamKeys(user, photos[..i]) + {StreamKey(user, PhotoKey(photos[i]))}
  {
    assert photos[..i + 1][..i] == photos[..i];
  }

  /**
   * `poll_flickr`: nothing happens, and nothing is requested, for an
   * account whose Person has no user.  Otherwise one signed request for the
   * contacts' photos is sent, and each photo is stored and recorded in
   * turn; a failure on one photo ends the poll, keeping what the photos
   * before it recorded.
   */
  method PollFlickr(store: Store, client: FlickrClient, account: AccountKey, authinfo: string)
    returns (res: Result<()>, ghost photos: seq<PhotoData>)
    requires store.Valid() && account in store.accounts
    modifies store, client
    ensures store.Valid()
    ensures RowsKept(old(store.Snapshot()), store.Snapshot())
    ensures StreamsKept(old(store.Snapshot()), store.Snapshot())
    ensures old(store.persons[store.accounts[account].person].user).None? ==>
              res == Ok(()) && store.Snapshot() == old(store.Snapshot()) && client.sent == old(client.sent)
    ensures old(store.persons[store.accounts[account].person].user).Some? ==>
              && |client.sent| > |old(client.sent)|
              && Requested(client.sent[|old(client.sent)|], "flickr.photos.getContactsPhotos", "auth_token", authinfo)
              && "api_sig" in client.sent[|old(client.sent)|]
    ensures old(store.persons[store.accounts[account].person].user).Some? && res.Ok? ==>
              && client.respond(client.sent[|old(client.sent)|]).payload == PhotoList(photos)
              && PhotoStreamKeys(old(store.persons[store.accounts[account].person].user).value, photos) <= store.stream.Keys
    ensures old(store.persons[store.accounts[account].person].user).Some? ==>
              ContactsOutcome(old(store.persons[store.accounts[account].person].user).value, client.respond(client.sent[|old(client.sent)|]), res, old(store.Snapshot()), store.Snapshot(), client)
  {
    res, photos := Ok(()), [];
    RowsKeptReflexive(store.Snapshot());
    var user := store.persons[store.accounts[account].person].user;
    if user.Some? {
      res, photos := PollContactsPhotos(store, client, user.value, authinfo);
    }
  }

  /**
   * How the poll of a user ends, given the answer to its contacts request:
   * an answer that is not an "ok" photo list fails with nothing stored; a
   * photo list whose every photo is ready succeeds; and a failure after it
   * is always left by a photo that cannot be stored.
   */
  ghost predicate ContactsOutcome(user: UserId, r: Response, res: Result<()>, before: Tables, after: Tables, client: FlickrClient)
  {
    && (r.status != 200 || r.stat != Some("ok") || !r.payload.PhotoList? ==> res.Err? && after == before)
    && (r.status == 200 && r.stat == Some("ok") && r.payload.PhotoList? ==> PhotosOutcome(user, r.payload.photos, res, before, after, client))
  }

  /**
   * How the photo loop ends: it succeeds when every photo is ready before
   * it, and a failure is left at some photo that is not ready after it,
   * with the rows of every photo before that one recorded.
   */
  ghost predicate PhotosOutcome(user: UserId, photos: seq<PhotoData>, res: Result<()>, before: Tables, after: Tables, client: FlickrClient)
  {
    && ((forall p | p in photos :: PhotoReady(before.objects, before.accounts, client, p)) ==> res.Ok?)
    && (res.Err? ==> exists i | 0 <= i < |photos| ::
          && PhotoStreamKeys(user, photos[..i]) <= after.stream.Keys
          && !PhotoReady(after.objects, after.accounts, client, photos[i]))
  }

  /** The body of `poll_flickr` for a user: the signed request, then every photo of its answer. */
  method PollContactsPhotos(store: Store, client: FlickrClient, user: UserId, authinfo: string)
    returns (res: Result<()>, ghost photos: seq<PhotoData>)
    requires store.Valid()
    modifies store, client
    ensures store.Valid()
    ensures RowsKept(old(store.Snapshot()), store.Snapshot())
    ensures StreamsKept(old(store.Snapshot()), store.Snapshot())
    ensures |client.sent| > |old(client.sent)|
    ensures Requested(client.sent[|old(client.sent)|], "flickr.photos.getContactsPhotos", "auth_token", authinfo)
    ensures "api_sig" in client.sent[|old(client.sent)|]
    ensures res.Ok? ==>
              && client.respond(client.sent[|old(client.sent)|]).payload == PhotoList(photos)
              && PhotoStreamKeys(user, photos) <= store.stream.Keys
    ensures ContactsOutcome(user, client.respond(client.sent[|old(client.sent)|]), res, old(store.Snapshot()), store.Snapshot(), client)
  {
    photos := [];
    RowsKeptReflexive(store.Snapshot());
    var recent := RequestContactsPhotos(client, authinfo);
    if recent.Err? {
      return Err(recent.failure), photos;
    }
    if !recent.value.PhotoList? {
      return Err(MissingKey("photos")), photos;
    }
    var list := recent.value.photos;
    photos := list;
    ghost var sentBefore := client.sent;
    res := ProjectPhotos(store, client, user, list);
    assert client.sent[|old(client.sent)|] == sentBefore[|old(client.sent)|];
  }

  /**
   * The signed `flickr.photos.getContactsPhotos` request of `poll_flickr`,
   * with the auth token, and the payload of an "ok" answer.
   */
  method RequestContactsPhotos(client: FlickrClient, authinfo: string) returns (res: Result<Payload>)
    modifies client
    ensures |client.sent| == |old(client.sent)| + 1 && old(client.sent) <= client.sent
    ensures Requested(client.sent[|old(client.sent)|], "flickr.photos.getContactsPhotos", "auth_token", authinfo)
    ensures "api_sig" in client.sent[|old(client.sent)|]
    ensures var r := client.respond(client.sent[|old(client.sent)|]);
            && (r.status != 200 ==> res == Err(HttpStatus(r.status)))
            && (r.status == 200 && r.stat != Some("ok") ==> res == Err(ServiceError(r.message)))
            && (r.status == 200 && r.stat == Some("ok") ==> res == Ok(r.payload))
  {
    res := CallFlickr(client, "flickr.photos.getContactsPhotos", true,
                      map["auth_token" := authinfo, "extras" := "date_upload"]);
  }

  /** The loop of `poll_flickr` over the photos, stopping at the first failure. */
  method ProjectPhotos(store: Store, client: FlickrClient, user: UserId, photos: seq<PhotoData>)
    returns (res: Result<()>)
    requires store.Valid()
    modifies store, client
    ensures store.Valid()
    ensures RowsKept(old(store.Snapshot()), store.Snapshot())
    ensures StreamsKept(old(store.Snapshot()), store.Snapshot())
    ensures old(client.sent) <= client.sent
    ensures res.Ok? ==> PhotoStreamKeys(user, photos) <= store.stream.Keys
    ensures PhotosOutcome(user, photos, res, old(store.Snapshot()), store.Snapshot(), client)
  {
    RowsKeptReflexive(store.Snapshot());
    for i := 0 to |photos|
      invariant store.Valid()
      invariant RowsKept(old(store.Snapshot()), store.Snapshot())
      invariant StreamsKept(old(store.Snapshot()), store.Snapshot())
      invariant old(client.sent) <= client.sent
      invariant PhotoStreamKeys(user, photos[..i]) <= store.stream.Keys
    {
      ghost var before := store.Snapshot();
      var item := ProjectPhoto(store, client, user, photos[i]);
      RowsKeptTransitive(old(store.Snapshot()), before, store.Snapshot());
      StreamsKeptTransitive(old(store.Snapshot()), before, store.Snapshot());
      if item.Err? {
        if PhotoReady(old(store.objects), old(store.accounts), client, photos[i]) {
          PhotoReadyKept(old(store.Snapshot()), before, client, photos[i]);
          assert false;
        }
        assert PhotoStreamKeys(user, photos[..i]) <= store.stream.Keys && !PhotoReady(store.objects, store.accounts, client, photos[i]);
        return Err(item.failure);
      }
      PhotoStreamKeysStep(user, photos, i);
    }
    assert photos[..|photos|] == photos;
    res := Ok(());
  }
}

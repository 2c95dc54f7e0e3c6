/**
 * The mlkshk poller: the MAC Authorization header of the early OAuth 2.0
 * MAC-token drafts, the Account for an mlkshk user, and the poll that
 * upserts an image Object for every post of the friend shake and records
 * it in the user's stream.
 */
module Mlkshk {
  import opened Text
  import opened Entities
  import opened Storage

  const Service := "mlkshk.com"

  // ---------------------------------------------------------------------
  // authstring and sign

  /**
   * `authstring`: 'MAC token="T", timestamp="S", nonce="N", signature="G"',
   * written out from the right, one '"' at a time.
   */
  function Authstring(token: string, timestamp: string, nonce: string, signature: string): string
  {
    "MAC token=" + "\"" + (token + "\"" + (", timestamp=" + "\"" + (timestamp + "\"" +
      (", nonce=" + "\"" + (nonce + "\"" + (", signature=" + "\"" + (signature + "\"")))))))
  }

  /**
   * The header gives its four fields back, in order, when it is cut at its
   * quotes, as long as no field holds a quote itself.
   */
  lemma AuthstringFields(token: string, timestamp: string, nonce: string, signature: string)
    requires '"' !in token && '"' !in timestamp && '"' !in nonce && '"' !in signature
    ensures Split(Authstring(token, timestamp, nonce, signature), '"') ==
              ["MAC token=", token, ", timestamp=", timestamp, ", nonce=", nonce, ", signature=", signature, ""]
  {
    QuotedFields("MAC token=", token, ", timestamp=", timestamp, ", nonce=", nonce, ", signature=", signature);
  }

  /** Four `name"value"` pairs in a row, cut at their quotes. */
  lemma QuotedFields(n1: string, v1: string, n2: string, v2: string, n3: string, v3: string, n4: string, v4: string)
    requires '"' !in n1 && '"' !in v1 && '"' !in n2 && '"' !in v2
    requires '"' !in n3 && '"' !in v3 && '"' !in n4 && '"' !in v4
    ensures Split(n1 + "\"" + (v1 + "\"" + (n2 + "\"" + (v2 + "\"" +
              (n3 + "\"" + (v3 + "\"" + (n4 + "\"" + (v4 + "\""))))))), '"') == [n1, v1, n2, v2, n3, v3, n4, v4, ""]
  {
    var tail := n3 + "\"" + (v3 + "\"" + (n4 + "\"" + (v4 + "\"" + "")));
    assert v4 + "\"" + "" == v4 + "\"";
    TwoPairs(n3, v3, n4, v4, "", [""]);
    TwoPairs(n1, v1, n2, v2, tail, [n3, v3, n4, v4, ""]);
  }

  /** Two `name"value"` pairs in front of `rest`, cut at their quotes. */
  lemma TwoPairs(n1: string, v1: string, n2: string, v2: string, rest: string, parts: seq<string>)
    requires '"' !in n1 && '"' !in v1 && '"' !in n2 && '"' !in v2 && Split(rest, '"') == parts
    ensures Split(n1 + "\"" + (v1 + "\"" + (n2 + "\"" + (v2 + "\"" + rest))), '"') == [n1, v1, n2, v2] + parts
  {
    QuotedPair(n2, v2, rest, parts);
    QuotedPair(n1, v1, n2 + "\"" + (v2 + "\"" + rest), [n2, v2] + parts);
    assert [n1, v1] + ([n2, v2] + parts) == [n1, v1, n2, v2] + parts;
  }

  /** Cutting `name"value"rest` at its quotes. */
  lemma QuotedPair(name: string, value: string, rest: string, parts: seq<string>)
    requires '"' !in name && '"' !in value && Split(rest, '"') == parts
    ensures Split(name + "\"" + (value + "\"" + rest), '"') == [name, value] + parts
  {
    SplitAtFirst(value, '"', rest);
    SplitAtFirst(name, '"', value + "\"" + rest);
  }

  /** The parts of a request uri that `urlparse` gives the signature. */
  datatype Uri = Uri(scheme: string, netloc: string, path: string, query: string)

  /** The port written into the signature, whatever the uri says. */
  const Port := "80"

  /** The normalised base string: its eight lines, in the order the MAC draft fixes. */
  function NormalString(token: string, timestamp: string, nonce: string, httpMethod: string, uri: Uri): string
  {
    Join([token, timestamp, nonce, httpMethod, uri.netloc, Port, uri.path, uri.query], '\n')
  }

  /**
   * Cut at its line breaks, the base string gives its eight fields back,
   * the port always "80", as long as no field holds a line break.
   */
  lemma NormalStringFields(token: string, timestamp: string, nonce: string, httpMethod: string, uri: Uri)
    requires '\n' !in token && '\n' !in timestamp && '\n' !in nonce && '\n' !in httpMethod
    requires '\n' !in uri.netloc && '\n' !in uri.path && '\n' !in uri.query
    ensures var lines := Split(NormalString(token, timestamp, nonce, httpMethod, uri), '\n');
            && lines == [token, timestamp, nonce, httpMethod, uri.netloc, Port, uri.path, uri.query]
            && lines[5] == "80"
  {
    SplitJoin([token, timestamp, nonce, httpMethod, uri.netloc, Port, uri.path, uri.query], '\n');
  }

  /**
   * The nonce: ten draws from `string.letters`.  `draws(i)` is the index
   * the i-th `choice` picks; the random source is not modelled.
   */
  function Nonce(draws: nat -> nat): (r: string)
    ensures |r| == 10
    ensures forall i | 0 <= i < |r| :: IsLetter(r[i])
  {
    LettersAreLetters();
    seq(10, i requires 0 <= i < 10 => Letters[draws(i) % |Letters|])
  }

  lemma LettersAreLetters()
    ensures forall i | 0 <= i < |Letters| :: IsLetter(Letters[i])
  {
  }

  /**
   * `sign`: the timestamp is the clock's whole seconds, the nonce ten
   * letters, and the signature `mac(secret, base)`, where `mac` stands for
   * the base64 text of the HMAC-SHA1 digest.
   */
  function Sign(uri: Uri, httpMethod: string, token: string, secret: string, now: nat, draws: nat -> nat,
                mac: (string, string) -> string): string
  {
    var timestamp := NatToString(now);
    var nonce := Nonce(draws);
    Authstring(token, timestamp, nonce, mac(secret, NormalString(token, timestamp, nonce, httpMethod, uri)))
  }

  /**
   * The header carries the token, the clock's seconds, a ten-letter nonce
   * and the MAC of the base string, in that order.
   */
  lemma SignFields(uri: Uri, httpMethod: string, token: string, secret: string, now: nat, draws: nat -> nat,
                   mac: (string, string) -> string)
    requires '"' !in token
    requires '"' !in mac(secret, NormalString(token, NatToString(now), Nonce(draws), httpMethod, uri))
    ensures var fields := Split(Sign(uri, httpMethod, token, secret, now, draws, mac), '"');
            && |fields| == 9
            && fields[1] == token
            && fields[3] == NatToString(now) && DigitsValue(fields[3]) == now
            && |fields[5]| == 10 && (forall i | 0 <= i < 10 :: IsLetter(fields[5][i]))
            && fields[7] == mac(secret, NormalString(token, fields[3], fields[5], httpMethod, uri))
  {
    var timestamp := NatToString(now);
    var nonce := Nonce(draws);
    NoQuoteIn(timestamp, nonce);
    AuthstringFields(token, timestamp, nonce, mac(secret, NormalString(token, timestamp, nonce, httpMethod, uri)));
    DigitsRoundTrip(now);
  }

  lemma NoQuoteIn(digits: string, letters: string)
    requires forall i | 0 <= i < |digits| :: IsDigit(digits[i])
    requires forall i | 0 <= i < |letters| :: IsLetter(letters[i])
    ensures '"' !in digits && '"' !in letters
  {
    forall i | 0 <= i < |digits| ensures digits[i] != '"' {
      assert IsDigit(digits[i]);
    }
    forall i | 0 <= i < |letters| ensures letters[i] != '"' {
      assert IsLetter(letters[i]);
    }
  }

  // ---------------------------------------------------------------------
  // call_mlkshk

  /** One entry of the `friend_shake` list. */
  datatype ShakePost = ShakePost(
    permalinkPage: string,
    originalImageUrl: string,
    width: int,
    height: int,
    userId: nat,
    userName: string,
    title: string)

  /** The decoded JSON document: the friend shake, or a document without one. */
  datatype Document = FriendShake(posts: seq<ShakePost>) | NoFriendShake

  datatype Request = Request(uri: Uri, httpMethod: string, body: Option<string>, headers: map<string, string>)

  /** The HTTP status and the body, `None` when the body is not JSON. */
  datatype Response = Response(status: nat, document: Option<Document>)

  /**
   * The HTTP side as the poller sees it: `mac` for the base64 text of
   * HMAC-SHA1, the service's answer to a request, and every request sent.
   */
  class MlkshkClient {
    const mac: (string, string) -> string
    const respond: Request -> Response
    var sent: seq<Request>

    constructor (mac: (string, string) -> string, respond: Request -> Response)
      ensures this.mac == mac && this.respond == respond && sent == []
    {
      this.mac, this.respond := mac, respond;
      sent := [];
    }

    method Send(r: Request) returns (answer: Response)
      modifies this
      ensures sent == old(sent) + [r]
      ensures answer == respond(r)
    {
      sent := sent + [r];
      answer := respond(r);
    }
  }

  /**
   * `call_mlkshk`: the headers (an empty dict when none are given) gain an
   * Authorization header only when a token is given, and no other header
   * changes; then one request is sent.  A status other than 200, or a body
   * that is not JSON, is an error.
   */
  method CallMlkshk(client: MlkshkClient, uri: Uri, httpMethod: string, body: Option<string>,
                    headers: Option<map<string, string>>, authtoken: Option<string>, authsecret: string,
                    now: nat, draws: nat -> nat)
    returns (res: Result<Document>)
    modifies client
    ensures |client.sent| == |old(client.sent)| + 1 && old(client.sent) <= client.sent
    ensures var r := client.sent[|old(client.sent)|];
            var given := if headers.Some? then headers.value else map[];
            && r.uri == uri && r.httpMethod == httpMethod && r.body == body
            && (forall k | k != "Authorization" :: (k in r.headers <==> k in given))
            && (forall k | k in given && k != "Authorization" :: r.headers[k] == given[k])
            && (authtoken.None? ==> r.headers == given)
            && (authtoken.Some? ==>
                  && "Authorization" in r.headers
                  && r.headers["Authorization"] == Sign(uri, httpMethod, authtoken.value, authsecret, now, draws, client.mac))
    ensures var answer := client.respond(client.sent[|old(client.sent)|]);
            && (answer.status != 200 ==> res == Err(HttpStatus(answer.status)))
            && (answer.status == 200 && answer.document.None? ==> res == Err(InvalidJson))
            && (answer.status == 200 && answer.document.Some? ==> res == Ok(answer.document.value))
  {
    var h: map<string, string> := map[];
    if headers.Some? {
      h := headers.value;
    }
    if authtoken.Some? {
      h := h["Authorization" := Sign(uri, httpMethod, authtoken.value, authsecret, now, draws, client.mac)];
    }
    var answer := client.Send(Request(uri, httpMethod, body, h));
    if answer.status != 200 {
      return Err(HttpStatus(answer.status));
    }
    if answer.document.None? {
      return Err(InvalidJson);
    }
    res := Ok(answer.document.value);
  }

  // ---------------------------------------------------------------------
  // account_for_mlkshk_userinfo

  /** The userinfo dict: the user's number and name. */
  datatype UserInfo = UserInfo(id: nat, name: string)

  function MlkshkUserKey(info: UserInfo): AccountKey
  {
    AccountKey(Service, NatToString(info.id))
  }

  /** The user's page on mlkshk. */
  function ProfileUrl(name: string): string
  {
    "http://mlkshk.com/user/" + name
  }

  /**
   * `account_for_mlkshk_userinfo`: a stored Account is returned as it is.
   * Otherwise an Account named after the user is created, for the given
   * Person or for a new one that links to the user's page; no Media is
   * ever created.
   */
  method AccountForMlkshkUserinfo(store: Store, info: UserInfo, person: Option<PersonId>) returns (key: AccountKey)
    requires store.Valid()
    requires person.Some? ==> person.value < |store.persons|
    modifies store
    ensures store.Valid() && store.rank == old(store.rank)
    ensures RowsKept(old(store.Snapshot()), store.Snapshot())
    ensures key == MlkshkUserKey(info) && key in store.accounts
    ensures key in old(store.accounts) ==> store.Snapshot() == old(store.Snapshot())
    ensures key !in old(store.accounts) && person.Some? ==>
              store.Snapshot() == old(store.Snapshot()).(
                accounts := old(store.accounts)[key := Account(info.name, person.value, None)])
    ensures key !in old(store.accounts) && person.None? ==>
              store.Snapshot() == old(store.Snapshot()).(
                persons := old(store.persons) + [Person(info.name, ProfileUrl(info.name), None, None)],
                accounts := old(store.accounts)[key := Account(info.name, |old(store.persons)|, None)])
  {
    RowsKeptReflexive(store.Snapshot());
    key := MlkshkUserKey(info);
    if key in store.accounts {
      return;
    }
    var owner: PersonId;
    if person.None? {
      owner := store.AddPerson(Person(info.name, ProfileUrl(info.name), None, None));
    } else {
      owner := person.value;
    }
    ghost var withPerson := store.Snapshot();
    store.AddAccount(key, Account(info.name, owner, None));
    RowsKeptTransitive(old(store.Snapshot()), withPerson, store.Snapshot());
  }

  // ---------------------------------------------------------------------
  // poll_mlkshk

  /** The share key: the last '/'-segment of the post's page. */
  function Sharekey(post: ShakePost): string
  {
    LastSegment(post.permalinkPage, '/')
  }

  /**
   * The share key is what follows the page's last '/': it ends the page,
   * holds no '/', and is exactly the key a page `prefix/key` was built from.
   */
  lemma SharekeyOfPage(post: ShakePost, prefix: string, key: string)
    requires post.permalinkPage == prefix + "/" + key && '/' !in key
    ensures Sharekey(post) == key
    ensures EndsWith(post.permalinkPage, Sharekey(post)) && '/' !in Sharekey(post)
  {
    LastSegmentAfter(prefix, '/', key);
    SplitNoSeparator(key, '/');
    LastSegmentIsSuffix(post.permalinkPage, '/');
  }

  function PostKey(post: ShakePost): ObjKey
  {
    ObjKey(Service, Sharekey(post))
  }

  function PostAuthor(post: ShakePost): UserInfo
  {
    UserInfo(post.userId, post.userName)
  }

  function PostMedia(post: ShakePost): Media
  {
    Media(post.originalImageUrl, post.width, post.height)
  }

  /** The fields every poll writes over: author, title, page and the image render mode. */
  function Refreshed(o: Obj, post: ShakePost): Obj
  {
    o.(author := MlkshkUserKey(PostAuthor(post)), title := Some(post.title),
       permalink := Some(post.permalinkPage), renderMode := Image)
  }

  /** A new Object: only its image is set before the refreshed fields are written. */
  function FreshObj(image: MediaId): Obj
  {
    Obj(Image, None, None, None, None, AccountKey(Service, ""), Some(image), None)
  }

  /**
   * Rows are only added, and Objects only rewritten in place: the stored
   * Media, Persons and Accounts stay, and every stored Object key stays.
   */
  ghost predicate Grown(a: Tables, b: Tables)
  {
    && |a.media| <= |b.media| && b.media[..|a.media|] == a.media
    && |a.persons| <= |b.persons| && b.persons[..|a.persons|] == a.persons
    && (forall k | k in a.accounts :: k in b.accounts && b.accounts[k] == a.accounts[k])
    && a.objects.Keys <= b.objects.Keys
  }

  lemma GrownTransitive(a: Tables, b: Tables, c: Tables)
    requires Grown(a, b) && Grown(b, c)
    ensures Grown(a, c)
  {
    assert c.media[..|a.media|] == c.media[..|b.media|][..|a.media|];
    assert c.persons[..|a.persons|] == c.persons[..|b.persons|][..|a.persons|];
  }

  lemma RowsKeptGrown(a: Tables, b: Tables)
    requires RowsKept(a, b)
    ensures Grown(a, b)
  {
  }

  /**
   * The post's Object after the upsert: a stored one has its refreshed
   * fields rewritten and no Media is added; a new one gets one Media for
   * the post's image, saved first.
   */
  ghost predicate PostSaved(store: Store, post: ShakePost, objects0: map<ObjKey, Obj>, media0: seq<Media>)
    reads store
  {
    && (PostKey(post) in objects0 ==>
          && store.media == media0
          && store.objects == objects0[PostKey(post) := Refreshed(objects0[PostKey(post)], post)])
    && (PostKey(post) !in objects0 ==>
          && store.media == media0 + [PostMedia(post)]
          && store.objects == objects0[PostKey(post) := Refreshed(FreshObj(|media0|), post)])
  }

  /** The user's stream has a row on the post's Object: the one there was, or a new post row. */
  ghost predicate PostRecorded(store: Store, user: UserId, post: ShakePost, stream0: map<StreamKey, StreamEntry>)
    reads store
  {
    && PostKey(post) in store.objects
    && (StreamKey(user, PostKey(post)) in stream0 ==> store.stream == stream0)
    && (StreamKey(user, PostKey(post)) !in stream0 ==>
          store.stream == stream0[StreamKey(user, PostKey(post)) :=
            StreamEntry(store.objects[PostKey(post)].author, Post, store.objects[PostKey(post)].time)])
  }

  /** The Object part of one post: the upsert, with the author's Account found or created. */
  method SavePost(store: Store, post: ShakePost)
    requires store.Valid()
    modifies store
    ensures store.Valid()
    ensures Grown(old(store.Snapshot()), store.Snapshot())
    ensures store.stream == old(store.stream) && store.replies == old(store.replies)
    ensures MlkshkUserKey(PostAuthor(post)) in store.accounts
    ensures PostSaved(store, post, old(store.objects), old(store.media))
  {
    var key := PostKey(post);
    if key in store.objects {
      var obj := store.objects[key];
      ghost var before := store.Snapshot();
      var author := AccountForMlkshkUserinfo(store, PostAuthor(post), None);
      RowsKeptGrown(before, store.Snapshot());
      ghost var withAuthor := store.Snapshot();
      store.UpdateObject(key, Refreshed(obj, post));
      GrownTransitive(before, withAuthor, store.Snapshot());
    } else {
      ghost var before := store.Snapshot();
      var photo := store.AddMedia(PostMedia(post));
      ghost var withPhoto := store.Snapshot();
      var author := AccountForMlkshkUserinfo(store, PostAuthor(post), None);
      RowsKeptTransitive(before, withPhoto, store.Snapshot());
      ghost var withAuthor := store.Snapshot();
      var saved := store.InsertObject(key, Refreshed(FreshObj(photo), post));
      RowsKeptTransitive(before, withAuthor, store.Snapshot());
      RowsKeptGrown(before, store.Snapshot());
    }
  }

  /**
   * One post of the poll: the upsert, then the get-or-create of the
   * UserStream row on the Object with verb post, at the Object's time.
   */
  method ProjectPost(store: Store, user: UserId, post: ShakePost)
    requires store.Valid()
    modifies store
    ensures store.Valid()
    ensures Grown(old(store.Snapshot()), store.Snapshot()) && StreamsKept(old(store.Snapshot()), store.Snapshot())
    ensures PostSaved(store, post, old(store.objects), old(store.media))
    ensures PostRecorded(store, user, post, old(store.stream))
    ensures StreamKey(user, PostKey(post)) in store.stream
    ensures PostKey(post) in store.objects && Shows(store.objects[PostKey(post)], post)
    ensures store.objects == old(store.objects)[PostKey(post) := store.objects[PostKey(post)]]
  {
    ghost var before := store.Snapshot();
    SavePost(store, post);
    ghost var saved := store.Snapshot();
    var obj := store.objects[PostKey(post)];
    store.EnsureStream(StreamKey(user, PostKey(post)), StreamEntry(obj.author, Post, obj.time));
    RowsKeptGrown(saved, store.Snapshot());
    GrownTransitive(before, saved, store.Snapshot());
  }

  /** The UserStream keys of the given posts. */
  function PostStreamKeys(user: UserId, posts: seq<ShakePost>): set<StreamKey>
  {
    if posts == [] then {}
    else PostStreamKeys(user, posts[..|posts| - 1]) + {StreamKey(user, PostKey(posts[|posts| - 1]))}
  }

  /** A proof step for the posts loop: one more post adds its own stream key. */
  lemma PostStreamKeysStep(user: UserId, posts: seq<ShakePost>, i: nat)
    requires i < |posts|
    ensures PostStreamKeys(user, posts[..i + 1]) == PostStreamKeys(user, posts[..i]) + {StreamKey(user, PostKey(posts[i]))}
  {
    assert posts[..i + 1][..i] == posts[..i];
  }

  /** The Object shows the post: its author, title, page and render mode are the ones the post refreshes. */
  predicate Shows(o: Obj, post: ShakePost)
  {
    o.author == MlkshkUserKey(PostAuthor(post)) && o.title == Some(post.title)
    && o.permalink == Some(post.permalinkPage) && o.renderMode == Image
  }

  /** No post after the j-th of the list shares its key. */
  predicate LatestAt(posts: seq<ShakePost>, j: nat)
    requires j < |posts|
  {
    forall k | j < k < |posts| :: PostKey(posts[k]) != PostKey(posts[j])
  }

  /** Every post that no later post of the list shares a key with is shown by its stored Object. */
  ghost predicate ShowsLatest(objects: map<ObjKey, Obj>, posts: seq<ShakePost>)
  {
    forall j | 0 <= j < |posts| && LatestAt(posts, j) ::
      PostKey(posts[j]) in objects && Shows(objects[PostKey(posts[j])], posts[j])
  }

  /** A post that is the latest in a list extended by one post is the latest in the list before it too. */
  lemma LatestAtPrefix(posts: seq<ShakePost>, i: nat, j: nat)
    requires j < i < |posts| && LatestAt(posts[..i + 1], j)
    ensures LatestAt(posts[..i], j) && PostKey(posts[i]) != PostKey(posts[j])
  {
    assert posts[..i + 1][i] == posts[i];
    assert posts[..i + 1][j] == posts[j] == posts[..i][j];
    forall k | j < k < i
      ensures PostKey(posts[..i][k]) != PostKey(posts[..i][j])
    {
      assert posts[..i + 1][k] == posts[..i][k];
    }
  }

  /** Every post of the list shares its key with a latest one, so every post's Object is stored. */
  lemma {:induction false} ShowsLatestStored(objects: map<ObjKey, Obj>, posts: seq<ShakePost>, j: nat)
    requires ShowsLatest(objects, posts) && j < |posts|
    ensures PostKey(posts[j]) in objects
    decreases |posts| - j
  {
    if !LatestAt(posts, j) {
      var k :| j < k < |posts| && PostKey(posts[k]) == PostKey(posts[j]);
      ShowsLatestStored(objects, posts, k);
    }
  }

  /** Saving one more post keeps the latest posts before it shown, unless it shares their key. */
  lemma ShowsLatestStep(o0: map<ObjKey, Obj>, o1: map<ObjKey, Obj>, posts: seq<ShakePost>, i: nat)
    requires i < |posts| && ShowsLatest(o0, posts[..i])
    requires PostKey(posts[i]) in o1 && Shows(o1[PostKey(posts[i])], posts[i])
    requires o1 == o0[PostKey(posts[i]) := o1[PostKey(posts[i])]]
    ensures ShowsLatest(o1, posts[..i + 1])
  {
    var ps := posts[..i + 1];
    forall j | 0 <= j < |ps| && LatestAt(ps, j)
      ensures PostKey(ps[j]) in o1 && Shows(o1[PostKey(ps[j])], ps[j])
    {
      assert ps[j] == posts[j];
      if j < i {
        LatestAtPrefix(posts, i, j);
        assert posts[..i][j] == posts[j];
      }
    }
  }

  /** The loop of `poll_mlkshk` over the friend shake. */
  method ProjectPosts(store: Store, user: UserId, posts: seq<ShakePost>)
    requires store.Valid()
    modifies store
    ensures store.Valid()
    ensures Grown(old(store.Snapshot()), store.Snapshot()) && StreamsKept(old(store.Snapshot()), store.Snapshot())
    ensures PostStreamKeys(user, posts) <= store.stream.Keys
    ensures ShowsLatest(store.objects, posts)
    ensures forall j | 0 <= j < |posts| :: PostKey(posts[j]) in store.objects
  {
    RowsKeptReflexive(store.Snapshot());
    RowsKeptGrown(store.Snapshot(), store.Snapshot());
    for i := 0 to |posts|
      invariant store.Valid()
      invariant Grown(old(store.Snapshot()), store.Snapshot()) && StreamsKept(old(store.Snapshot()), store.Snapshot())
      invariant PostStreamKeys(user, posts[..i]) <= store.stream.Keys
      invariant ShowsLatest(store.objects, posts[..i])
    {
      ghost var before, objects0 := store.Snapshot(), store.objects;
      ProjectPost(store, user, posts[i]);
      GrownTransitive(old(store.Snapshot()), before, store.Snapshot());
      StreamsKeptTransitive(old(store.Snapshot()), before, store.Snapshot());
      PostStreamKeysStep(user, posts, i);
      ShowsLatestStep(objects0, store.objects, posts, i);
    }
    assert posts[..|posts|] == posts;
    forall j | 0 <= j < |posts| ensures PostKey(posts[j]) in store.objects {
      ShowsLatestStored(store.objects, posts, j);
    }
  }

  /** The friend shake's address. */
  const FriendsUri := Uri("https", "mlkshk.com", "/api/friends", "")

  /** The request the poll sends for the friend shake, signed with the account's token and secret. */
  predicate FriendsRequest(r: Request, token: string, secret: string, now: nat, draws: nat -> nat,
                           mac: (string, string) -> string)
  {
    && r.uri == FriendsUri && r.httpMethod == "GET" && r.body.None?
    && r.headers == map["Authorization" := Sign(FriendsUri, "GET", token, secret, now, draws, mac)]
  }

  /**
   * `poll_mlkshk`: nothing happens, and nothing is requested, for an
   * account whose Person has no user.  Otherwise the account's token and
   * secret are its `authinfo` cut at the first ':' (an error when there is
   * none), one signed request fetches the friend shake, and each post is
   * upserted and recorded in turn.
   */
  method PollMlkshk(store: Store, client: MlkshkClient, account: AccountKey, authinfo: string,
                    now: nat, draws: nat -> nat)
    returns (res: Result<()>, ghost posts: seq<ShakePost>)
    requires store.Valid() && account in store.accounts
    modifies store, client
    ensures store.Valid()
    ensures Grown(old(store.Snapshot()), store.Snapshot()) && StreamsKept(old(store.Snapshot()), store.Snapshot())
    ensures old(store.persons[store.accounts[account].person].user).None? ==>
              res == Ok(()) && store.Snapshot() == old(store.Snapshot()) && client.sent == old(client.sent)
    ensures old(store.persons[store.accounts[account].person].user).Some? && ':' !in authinfo ==>
              res == Err(NoSeparator) && store.Snapshot() == old(store.Snapshot()) && client.sent == old(client.sent)
    ensures old(store.persons[store.accounts[account].person].user).Some? && ':' in authinfo ==>
              && |client.sent| == |old(client.sent)| + 1
              && FriendsRequest(client.sent[|old(client.sent)|], SplitOnce(authinfo, ':').value.0,
                                SplitOnce(authinfo, ':').value.1, now, draws, client.mac)
    ensures old(store.persons[store.accounts[account].person].user).Some? && res.Ok? ==>
              && ':' in authinfo
              && client.respond(client.sent[|old(client.sent)|]).document == Some(FriendShake(posts))
              && PostStreamKeys(old(store.persons[store.accounts[account].person].user).value, posts) <= store.stream.Keys
              && ShowsLatest(store.objects, posts)
    ensures old(store.persons[store.accounts[account].person].user).Some? && ':' in authinfo ==>
              ShakeOutcome(client.respond(client.sent[|old(client.sent)|]), res, old(store.Snapshot()), store.Snapshot())
  {
    res, posts := Ok(()), [];
    RowsKeptReflexive(store.Snapshot());
    RowsKeptGrown(store.Snapshot(), store.Snapshot());
    var user := store.persons[store.accounts[account].person].user;
    if user.None? {
      return;
    }
    var credentials := SplitOnce(authinfo, ':');
    if credentials.None? {
      return Err(NoSeparator), posts;
    }
    var (token, secret) := credentials.value;
    res, posts := PollFriendShake(store, client, user.value, token, secret, now, draws);
  }

  /**
   * How the poll ends, given the answer to the friend shake request: it
   * succeeds exactly when the answer is a 200 whose JSON has the
   * `friend_shake` list, and a failure stores nothing.
   */
  ghost predicate ShakeOutcome(answer: Response, res: Result<()>, before: Tables, after: Tables)
  {
    && (res.Ok? <==> answer.status == 200 && answer.document.Some? && answer.document.value.FriendShake?)
    && (answer.status != 200 ==> res == Err(HttpStatus(answer.status)))
    && (answer.status == 200 && answer.document.None? ==> res == Err(InvalidJson))
    && (answer.status == 200 && answer.document.Some? && !answer.document.value.FriendShake? ==>
          res == Err(MissingKey("friend_shake")))
    && (res.Err? ==> after == before)
  }

  /** The body of `poll_mlkshk` once the user and the credentials are known. */
  method PollFriendShake(store: Store, client: MlkshkClient, user: UserId, token: string, secret: string,
                         now: nat, draws: nat -> nat)
    returns (res: Result<()>, ghost posts: seq<ShakePost>)
    requires store.Valid()
    modifies store, client
    ensures store.Valid()
    ensures Grown(old(store.Snapshot()), store.Snapshot()) && StreamsKept(old(store.Snapshot()), store.Snapshot())
    ensures |client.sent| == |old(client.sent)| + 1
    ensures FriendsRequest(client.sent[|old(client.sent)|], token, secret, now, draws, client.mac)
    ensures res.Ok? ==>
              && client.respond(client.sent[|old(client.sent)|]).document == Some(FriendShake(posts))
              && PostStreamKeys(user, posts) <= store.stream.Keys
              && ShowsLatest(store.objects, posts)
    ensures ShakeOutcome(client.respond(client.sent[|old(client.sent)|]), res, old(store.Snapshot()), store.Snapshot())
  {
    posts := [];
    RowsKeptReflexive(store.Snapshot());
    RowsKeptGrown(store.Snapshot(), store.Snapshot());
    var friendshake := CallMlkshk(client, FriendsUri, "GET", None, None, Some(token), secret, now, draws);
    if friendshake.Err? {
      return Err(friendshake.failure), posts;
    }
    if !friendshake.value.FriendShake? {
      return Err(MissingKey("friend_shake")), posts;
    }
    var list := friendshake.value.posts;
    posts := list;
    ProjectPosts(store, user, list);
    res := Ok(());
  }
}

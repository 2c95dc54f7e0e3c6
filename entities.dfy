/**
 * The canonical object model shared by the Flickr, Twitter, TypePad and
 * mlkshk pollers: the rows of the Person, Account, Media, Object,
 * UserStream and UserReplyStream tables, and the keys that make each
 * get-or-create idempotent.
 */
module Entities {
  import opened Text

  /** A publish time; parsing the services' date strings is not modelled. */
  type Time = int
  /** The primary key of a local user. */
  type UserId = nat
  /** Media and Person rows are numbered in insertion order. */
  type MediaId = nat
  type PersonId = nat

  /** Account(service, ident) is unique. */
  datatype AccountKey = AccountKey(service: string, ident: string)
  /** Object(service, foreign_id) is unique: the deduplication fingerprint. */
  datatype ObjKey = ObjKey(service: string, foreignId: string)

  datatype Media = Media(imageUrl: string, width: int, height: int)

  datatype Person = Person(
    displayName: string,
    permalink: string,
    avatar: Option<MediaId>,
    user: Option<UserId>)

  /** The extra profile fields a Twitter account carries. */
  datatype Background = Background(color: string, imageUrl: string, tile: bool)

  datatype Account = Account(displayName: string, person: PersonId, background: Option<Background>)

  datatype RenderMode = Status | Image | Mixed | Photo

  datatype Obj = Obj(
    renderMode: RenderMode,
    title: Option<string>,
    body: Option<string>,
    time: Option<Time>,
    permalink: Option<string>,
    author: AccountKey,
    image: Option<MediaId>,
    inReplyTo: Option<ObjKey>)

  datatype Verb = Post | Share | Reply | Like

  /** UserStream(user, obj) is unique. */
  datatype StreamKey = StreamKey(user: UserId, obj: ObjKey)
  datatype StreamEntry = StreamEntry(actor: AccountKey, verb: Verb, time: Option<Time>)

  /** UserReplyStream(user, root, reply) is unique. */
  datatype ReplyKey = ReplyKey(user: UserId, root: ObjKey, reply: ObjKey)
  datatype ReplyEntry = ReplyEntry(rootTime: Option<Time>, replyTime: Option<Time>)

  /** The exceptions that abort one item (or one poll) in the source. */
  datatype Failure =
    | HttpStatus(status: nat)       // a non-200 upstream response
    | MissingKey(name: string)      // a KeyError on a payload
    | DuplicateKey                  // the unique constraint refused a save
    | ServiceError(message: string) // Flickr answered with stat != 'ok'
    | BadNumber(text: string)       // int() refused its argument
    | AssertionFailed(message: string)
    | NotFound(what: string)        // a get() that found no row
    | NoSeparator                   // unpacking split(':', 1) into two names
    | InvalidJson                   // a response body that is not JSON
    | BadTime(text: string)         // strptime refused its argument
    | NoneValue(name: string)       // a missing attribute used as a value (a TypeError)

  datatype Result<T> = Ok(value: T) | Err(failure: Failure)

  /** A snapshot of every table, to say in one clause what a step leaves alone. */
  datatype Tables = Tables(
    media: seq<Media>,
    persons: seq<Person>,
    accounts: map<AccountKey, Account>,
    objects: map<ObjKey, Obj>,
    stream: map<StreamKey, StreamEntry>,
    replies: map<ReplyKey, ReplyEntry>)

  /** `b` is `a` with rows added and nothing removed or overwritten, streams aside. */
  ghost predicate RowsKept(a: Tables, b: Tables)
  {
    && |a.media| <= |b.media| && b.media[..|a.media|] == a.media
    && |a.persons| <= |b.persons| && b.persons[..|a.persons|] == a.persons
    && (forall k | k in a.accounts :: k in b.accounts && b.accounts[k] == a.accounts[k])
    && (forall k | k in a.objects :: k in b.objects && b.objects[k] == a.objects[k])
  }

  /** `b` holds every Object of `a`, unchanged, as RowsKept promises of the Object table. */
  ghost predicate ObjectsKept(a: map<ObjKey, Obj>, b: map<ObjKey, Obj>)
  {
    forall k | k in a :: k in b && b[k] == a[k]
  }

  /** First write wins: every stream row already present is still there, unchanged. */
  ghost predicate StreamsKept(a: Tables, b: Tables)
  {
    && (forall k | k in a.stream :: k in b.stream && b.stream[k] == a.stream[k])
    && (forall k | k in a.replies :: k in b.replies && b.replies[k] == a.replies[k])
  }

  /** A proof step: chaining two writes, each of which keeps every row, keeps every row. */
  lemma RowsKeptTransitive(a: Tables, b: Tables, c: Tables)
    requires RowsKept(a, b) && RowsKept(b, c)
    ensures RowsKept(a, c)
  {
    assert c.media[..|a.media|] == c.media[..|b.media|][..|a.media|];
    assert c.persons[..|a.persons|] == c.persons[..|b.persons|][..|a.persons|];
  }

  /** A proof step: chaining two writes, each of which keeps every stream row, keeps them all. */
  lemma StreamsKeptTransitive(a: Tables, b: Tables, c: Tables)
    requires StreamsKept(a, b) && StreamsKept(b, c)
    ensures StreamsKept(a, c)
  {
  }

  /** A proof step: a path that writes nothing keeps every row. */
  lemma RowsKeptReflexive(a: Tables)
    ensures RowsKept(a, a)
  {
    assert a.media[..|a.media|] == a.media;
    assert a.persons[..|a.persons|] == a.persons;
  }
}

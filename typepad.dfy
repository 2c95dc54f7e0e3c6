/**
 * The TypePad poller: the Account for a TypePad user, the Object for a
 * TypePad asset (its parent first, a Photo with one possibly downscaled
 * image), the filter that picks which notifications are shown, and the
 * stream projection of each notification on its thread root.
 */
module TypePad {
  import opened Text
  import opened Entities
  import opened Thread
  import opened Storage

  const Service := "typepad.com"

  /** An `image_link` or `avatar_link`: a fixed url and size, and optionally a url template with a `{spec}` slot. */
  datatype ImageLink = ImageLink(url: string, width: int, height: int, urlTemplate: Option<string>)

  datatype TpUser = TpUser(urlId: string, displayName: string, profilePageUrl: string, avatarLink: ImageLink)

  /** Where an asset was posted from; `byUser` marks a boomerang of the user's own content. */
  datatype Source = Source(byUser: bool)

  datatype Container = Container(urlId: string, objectType: string)

  /** A TypePad asset as the API returns it, with its parent assets nested. */
  datatype TpObject = TpObject(
    urlId: string,
    objectType: string,
    author: TpUser,
    title: Option<string>,
    renderedContent: Option<string>,
    content: Option<string>,
    published: Time,
    permalinkUrl: Option<string>,
    imageLink: ImageLink,
    inReplyTo: Option<TpObject>,
    reblogOf: Option<TpObject>,
    source: Option<Source>,
    container: Option<Container>)

  /** One notification: what happened (`verb`), who did it, when, and to which asset, if it still exists. */
  datatype Note = Note(verb: string, actor: TpUser, published: Time, obj: Option<TpObject>)

  /** Python truthiness of an optional string: present and non-empty. */
  predicate Truthy(s: Option<string>)
  {
    s.Some? && s.value != ""
  }

  function TpUserKey(u: TpUser): AccountKey
  {
    AccountKey(Service, u.urlId)
  }

  function TpKey(o: TpObject): ObjKey
  {
    ObjKey(Service, o.urlId)
  }

  // ---------------------------------------------------------------------
  // account_for_typepad_user

  /**
   * `account_for_typepad_user`: the Account keyed ('typepad.com', url_id)
   * is returned as it is when stored; otherwise one Account is created,
   * preceded by an avatar and a Person when no Person is given.  The
   * avatar is the 50x50 rendition of the url template when there is one,
   * and the link's own url and size otherwise.
   */
  method AccountForTypepadUser(store: Store, u: TpUser, person: Option<PersonId>) returns (key: AccountKey)
    requires store.Valid()
    requires person.Some? ==> person.value < |store.persons|
    modifies store
    ensures store.Valid() && store.rank == old(store.rank)
    ensures RowsKept(old(store.Snapshot()), store.Snapshot())
    ensures store.objects == old(store.objects) && store.stream == old(store.stream) && store.replies == old(store.replies)
    ensures key == TpUserKey(u) && key in store.accounts
    ensures key in old(store.accounts) ==> store.Snapshot() == old(store.Snapshot())
    ensures key !in old(store.accounts) && person.Some? ==>
              store.Snapshot() == old(store.Snapshot()).(
                accounts := old(store.accounts)[key := Account(u.displayName, person.value, None)])
    ensures key !in old(store.accounts) && person.None? ==>
              store.Snapshot() == old(store.Snapshot()).(
                media := old(store.media) + [
                  if Truthy(u.avatarLink.urlTemplate)
                  then Media(ReplaceAll(u.avatarLink.urlTemplate.value, "{spec}", "50si"), 50, 50)
                  else Media(u.avatarLink.url, u.avatarLink.width, u.avatarLink.height)],
                persons := old(store.persons) + [Person(u.displayName, u.profilePageUrl, Some(|old(store.media)|), None)],
                accounts := old(store.accounts)[key := Account(u.displayName, |old(store.persons)|, None)])
  {
    key := TpUserKey(u);
    if key in store.accounts {
      return;
    }
    var owner: PersonId;
    if person.None? {
      var avatar: Media;
      if Truthy(u.avatarLink.urlTemplate) {
        avatar := Media(ReplaceAll(u.avatarLink.urlTemplate.value, "{spec}", "50si"), 50, 50);
      } else {
        avatar := Media(u.avatarLink.url, u.avatarLink.width, u.avatarLink.height);
      }
      var avatarId := store.AddMedia(avatar);
      ghost var withAvatar := store.Snapshot();
      owner := store.AddPerson(Person(u.displayName, u.profilePageUrl, Some(avatarId), None));
      RowsKeptTransitive(old(store.Snapshot()), withAvatar, store.Snapshot());
    } else {
      owner := person.value;
    }
    ghost var withPerson := store.Snapshot();
    store.AddAccount(key, Account(u.displayName, owner, None));
    RowsKeptTransitive(old(store.Snapshot()), withPerson, store.Snapshot());
  }

  // ---------------------------------------------------------------------
  // Photo downscaling

  /** A photo is downscaled when it has a url template and a side longer than 1024. */
  predicate Oversized(link: ImageLink)
  {
    Truthy(link.urlTemplate) && (link.height > 1024 || link.width > 1024)
  }

  /**
   * `m` is the image saved for `link`: the link itself unless it is
   * oversized; otherwise the 1024-pixel rendition, whose longer side is
   * 1024 and whose shorter side is 1024 times the original ratio, rounded
   * down.
   */
  predicate Downscaled(link: ImageLink, m: Media)
  {
    if !Oversized(link) then m == Media(link.url, link.width, link.height)
    else
      && m.imageUrl == ReplaceAll(link.urlTemplate.value, "{spec}", "1024pi")
      && if link.height > link.width then
           && m.height == 1024
           && m.width * link.height <= 1024 * link.width < (m.width + 1) * link.height
         else
           && m.width == 1024
           && m.height * link.width <= 1024 * link.height < (m.height + 1) * link.width
  }

  /** The rounding-down quotient of `a` by a positive `b` is bracketed by `a`. */
  lemma FloorBracket(a: int, b: int)
    requires b > 0
    ensures (a / b) * b <= a < (a / b + 1) * b
  {
  }

  /** A quotient of something smaller than `1024 * b` is at most 1024. */
  lemma QuotientAtMost(a: int, b: int)
    requires b > 0 && a <= 1024 * b
    ensures a / b <= 1024
  {
    FloorBracket(a, b);
  }

  /** Only one rendition meets the description, so the downscaled size is determined by the link. */
  lemma DownscaledUnique(link: ImageLink, m1: Media, m2: Media)
    requires Downscaled(link, m1) && Downscaled(link, m2)
    ensures m1 == m2
  {
    if Oversized(link) {
      if link.height > link.width {
        FloorUnique(m1.width, m2.width, 1024 * link.width, link.height);
      } else {
        FloorUnique(m1.height, m2.height, 1024 * link.height, link.width);
      }
    }
  }

  lemma FloorUnique(x: int, y: int, a: int, b: int)
    requires b > 0
    requires x * b <= a < (x + 1) * b
    requires y * b <= a < (y + 1) * b
    ensures x == y
  {
  }

  /**
   * The Photo branch of `object_for_typepad_object`: the link's size and
   * url, replaced by the 1024-pixel rendition when the photo is oversized,
   * after which neither side exceeds 1024.
   */
  method ScaledImage(link: ImageLink) returns (m: Media)
    ensures Downscaled(link, m)
    ensures Oversized(link) ==> m.width <= 1024 && m.height <= 1024 && (m.width == 1024 || m.height == 1024)
  {
    var height, width := link.height, link.width;
    var url := link.url;
    if Truthy(link.urlTemplate) {
      if height > 1024 || width > 1024 {
        url := ReplaceAll(link.urlTemplate.value, "{spec}", "1024pi");
        if height > width {
          FloorBracket(1024 * width, height);
          QuotientAtMost(1024 * width, height);
          width := 1024 * width / height;
          height := 1024;
        } else {
          FloorBracket(1024 * height, width);
          QuotientAtMost(1024 * height, width);
          height := 1024 * height / width;
          width := 1024;
        }
      }
    }
    m := Media(url, width, height);
  }

  // ---------------------------------------------------------------------
  // object_for_typepad_object

  /** The raw body: the rendered content when non-empty, else the content, else the empty string. */
  function RawBody(o: TpObject): string
  {
    if Truthy(o.renderedContent) then o.renderedContent.value
    else if Truthy(o.content) then o.content.value
    else ""
  }

  /** The saved body: the raw body cleaned by `tidy` unless it is empty. */
  function TpBody(o: TpObject, tidy: string -> string): string
  {
    var raw := RawBody(o);
    if raw == "" then "" else tidy(raw)
  }

  /** The parent of an asset: the one it replies to, or else the one it reblogs. */
  function ParentKeyOf(o: TpObject): (p: Option<ObjKey>)
    ensures o.inReplyTo.Some? ==> p == Some(TpKey(o.inReplyTo.value))
    ensures o.inReplyTo.None? && o.reblogOf.Some? ==> p == Some(TpKey(o.reblogOf.value))
    ensures p.None? <==> o.inReplyTo.None? && o.reblogOf.None?
  {
    match o.inReplyTo
    case Some(r) => Some(TpKey(r))
    case None => if o.reblogOf.Some? then Some(TpKey(o.reblogOf.value)) else None
  }

  /** The asset an asset hangs under: the one it replies to, or else the one it reblogs. */
  function ParentAsset(o: TpObject): (p: Option<TpObject>)
    ensures p.Some? ==> p.value < o
  {
    if o.inReplyTo.Some? then o.inReplyTo else o.reblogOf
  }

  /**
   * The keys of the Objects `object_for_typepad_object` saves for `o` when
   * it succeeds: none for a stored asset; otherwise the asset's own and
   * those saved for its parent.
   */
  ghost function NewAssetKeys(objects: map<ObjKey, Obj>, o: TpObject): set<ObjKey>
    decreases o
  {
    if TpKey(o) in objects then {}
    else if ParentAsset(o).Some? then {TpKey(o)} + NewAssetKeys(objects, ParentAsset(o).value)
    else {TpKey(o)}
  }

  /**
   * When `object_for_typepad_object` succeeds on `o`: the asset is stored,
   * or it has no parent, or its parent normalises without saving the
   * asset's own key on the way (an asset that is its own ancestor).
   */
  ghost predicate AssetNormalises(objects: map<ObjKey, Obj>, o: TpObject)
    decreases o
  {
    if TpKey(o) in objects then true
    else if ParentAsset(o).Some? then
      AssetNormalises(objects, ParentAsset(o).value) && TpKey(o) !in NewAssetKeys(objects, ParentAsset(o).value)
    else true
  }

  /** Storing more Objects only shrinks what normalising an asset saves. */
  lemma {:induction false} NewAssetKeysShrink(a: map<ObjKey, Obj>, b: map<ObjKey, Obj>, o: TpObject)
    requires ObjectsKept(a, b)
    ensures NewAssetKeys(b, o) <= NewAssetKeys(a, o)
    decreases o
  {
    if TpKey(o) !in b && ParentAsset(o).Some? {
      NewAssetKeysShrink(a, b, ParentAsset(o).value);
    }
  }

  /** An asset that normalises keeps normalising once more Objects are stored. */
  lemma {:induction false} AssetNormalisesKept(a: map<ObjKey, Obj>, b: map<ObjKey, Obj>, o: TpObject)
    requires ObjectsKept(a, b) && AssetNormalises(a, o)
    ensures AssetNormalises(b, o)
    decreases o
  {
    if TpKey(o) !in b && ParentAsset(o).Some? {
      AssetNormalisesKept(a, b, ParentAsset(o).value);
      NewAssetKeysShrink(a, b, ParentAsset(o).value);
    }
  }

  /**
   * The Object stored for an asset carries the asset's title, cleaned body,
   * time, permalink and author, and its parent.  A Photo is shown as an
   * image, with the downscaled rendition as its one image; every other
   * type is shown mixed, without image.
   */
  ghost predicate Normalised(store: Store, o: TpObject, tidy: string -> string)
    reads store
  {
    && TpKey(o) in store.objects
    && var obj := store.objects[TpKey(o)];
    && obj.title == o.title
    && obj.body == Some(TpBody(o, tidy))
    && obj.time == Some(o.published)
    && obj.permalink == o.permalinkUrl
    && obj.author == TpUserKey(o.author)
    && obj.inReplyTo == ParentKeyOf(o)
    && (o.objectType == "Photo" ==>
          && obj.renderMode == Image
          && obj.image.Some? && obj.image.value < |store.media|
          && Downscaled(o.imageLink, store.media[obj.image.value]))
    && (o.objectType != "Photo" ==> obj.renderMode == Mixed && obj.image.None?)
  }

  /**
   * `object_for_typepad_object`: a stored asset is returned as it is, with
   * nothing created.  Otherwise the author's Account comes first, then the
   * parent, normalised the same way, then the Object is saved once.
   */
  method ObjectForTypepadObject(store: Store, o: TpObject, tidy: string -> string) returns (res: Result<ObjKey>)
    requires store.Valid()
    modifies store
    ensures store.Valid()
    ensures RowsKept(old(store.Snapshot()), store.Snapshot())
    ensures store.stream == old(store.stream) && store.replies == old(store.replies)
    ensures res.Ok? ==> res.value == TpKey(o) && res.value in store.objects
    ensures TpKey(o) in old(store.objects) ==> res == Ok(TpKey(o)) && store.Snapshot() == old(store.Snapshot())
    ensures res.Ok? && TpKey(o) !in old(store.objects) ==> Normalised(store, o, tidy)
    ensures res.Ok? <==> AssetNormalises(old(store.objects), o)
    ensures res.Ok? ==> store.objects.Keys == old(store.objects).Keys + NewAssetKeys(old(store.objects), o)
    decreases o, 3
  {
    RowsKeptReflexive(store.Snapshot());
    var key := TpKey(o);
    if key in store.objects {
      return Ok(key);
    }
    res := SaveNewAsset(store, o, tidy);
  }

  /** `object_for_typepad_object` for an asset not stored yet: the author, the parent, then the Object. */
  method SaveNewAsset(store: Store, o: TpObject, tidy: string -> string) returns (res: Result<ObjKey>)
    requires store.Valid() && TpKey(o) !in store.objects
    modifies store
    ensures store.Valid()
    ensures RowsKept(old(store.Snapshot()), store.Snapshot())
    ensures store.stream == old(store.stream) && store.replies == old(store.replies)
    ensures res.Ok? ==> res.value == TpKey(o) && Normalised(store, o, tidy)
    ensures res.Ok? <==> AssetNormalises(old(store.objects), o)
    ensures res.Ok? ==> store.objects.Keys == old(store.objects).Keys + NewAssetKeys(old(store.objects), o)
    decreases o, 2
  {
    var author, parent := AuthorAndParent(store, o, tidy);
    if parent.Err? {
      AssetOutcome(old(store.objects), store.objects, store.objects, o, false, false);
      return Err(parent.failure);
    }
    ghost var withParent := store.Snapshot();
    res := SaveAsset(store, o, tidy, author, parent.value);
    RowsKeptTransitive(old(store.Snapshot()), withParent, store.Snapshot());
    AssetOutcome(old(store.objects), withParent.objects, store.objects, o, true, res.Ok?);
  }

  /** The last step for a new asset: its cleaned body, then the Object saved once. */
  method SaveAsset(store: Store, o: TpObject, tidy: string -> string, author: AccountKey, parent: Option<ObjKey>)
    returns (res: Result<ObjKey>)
    requires store.Valid() && author == TpUserKey(o.author) && author in store.accounts
    requires parent == ParentKeyOf(o) && (parent.Some? ==> parent.value in store.objects)
    modifies store
    ensures store.Valid()
    ensures RowsKept(old(store.Snapshot()), store.Snapshot())
    ensures store.stream == old(store.stream) && store.replies == old(store.replies)
    ensures TpKey(o) in old(store.objects) ==> res == Err(DuplicateKey) && store.objects == old(store.objects)
    ensures TpKey(o) !in old(store.objects) ==>
              && res == Ok(TpKey(o))
              && Normalised(store, o, tidy)
              && store.objects.Keys == old(store.objects).Keys + {TpKey(o)}
  {
    var body := TpBody(o, tidy);
    res := SaveTpObject(store, o, author, body, parent);
  }

  /** The first two steps for a new asset: its author's Account, then its parent's Object. */
  method AuthorAndParent(store: Store, o: TpObject, tidy: string -> string)
    returns (author: AccountKey, parent: Result<Option<ObjKey>>)
    requires store.Valid()
    modifies store
    ensures store.Valid()
    ensures RowsKept(old(store.Snapshot()), store.Snapshot())
    ensures store.stream == old(store.stream) && store.replies == old(store.replies)
    ensures author == TpUserKey(o.author) && author in store.accounts
    ensures parent.Ok? ==> parent.value == ParentKeyOf(o) && (parent.value.Some? ==> parent.value.value in store.objects)
    ensures ParentAsset(o).None? ==> parent.Ok? && store.objects == old(store.objects)
    ensures ParentAsset(o).Some? ==>
              && (parent.Ok? <==> AssetNormalises(old(store.objects), ParentAsset(o).value))
              && (parent.Ok? ==> store.objects.Keys == old(store.objects).Keys + NewAssetKeys(old(store.objects), ParentAsset(o).value))
    decreases o, 1
  {
    author := AccountForTypepadUser(store, o.author, None);
    ghost var withAuthor := store.Snapshot();
    parent := ParentForTpObject(store, o, tidy);
    RowsKeptTransitive(old(store.Snapshot()), withAuthor, store.Snapshot());
  }

  /**
   * How normalising the parent (`objects0` to `objects1`) and the save of
   * the asset (`objects1` to `objects2`) decide whether a new asset
   * normalises, and what it saves.
   */
  lemma AssetOutcome(objects0: map<ObjKey, Obj>, objects1: map<ObjKey, Obj>, objects2: map<ObjKey, Obj>,
                     o: TpObject, parentOk: bool, saved: bool)
    requires TpKey(o) !in objects0
    requires ParentAsset(o).None? ==> parentOk && objects1 == objects0
    requires ParentAsset(o).Some? ==>
               && (parentOk <==> AssetNormalises(objects0, ParentAsset(o).value))
               && (parentOk ==> objects1.Keys == objects0.Keys + NewAssetKeys(objects0, ParentAsset(o).value))
    requires saved <==> parentOk && TpKey(o) !in objects1
    requires saved ==> objects2.Keys == objects1.Keys + {TpKey(o)}
    ensures saved <==> AssetNormalises(objects0, o)
    ensures saved ==> objects2.Keys == objects0.Keys + NewAssetKeys(objects0, o)
  {
  }

  /** The `in_reply_to`, else the `reblog_of`, asset normalised into a stored Object. */
  method ParentForTpObject(store: Store, o: TpObject, tidy: string -> string) returns (res: Result<Option<ObjKey>>)
    requires store.Valid()
    modifies store
    ensures store.Valid()
    ensures RowsKept(old(store.Snapshot()), store.Snapshot())
    ensures store.stream == old(store.stream) && store.replies == old(store.replies)
    ensures store.accounts.Keys >= old(store.accounts).Keys
    ensures res.Ok? ==> res.value == ParentKeyOf(o) && (res.value.Some? ==> res.value.value in store.objects)
    ensures ParentAsset(o).None? ==> res == Ok(None) && store.Snapshot() == old(store.Snapshot())
    ensures ParentAsset(o).Some? ==>
              && (res.Ok? <==> AssetNormalises(old(store.objects), ParentAsset(o).value))
              && (res.Ok? ==> store.objects.Keys == old(store.objects).Keys + NewAssetKeys(old(store.objects), ParentAsset(o).value))
    decreases o, 0
  {
    if o.inReplyTo.Some? {
      var up := ObjectForTypepadObject(store, o.inReplyTo.value, tidy);
      if up.Err? {
        return Err(up.failure);
      }
      return Ok(Some(up.value));
    } else if o.reblogOf.Some? {
      var up := ObjectForTypepadObject(store, o.reblogOf.value, tidy);
      if up.Err? {
        return Err(up.failure);
      }
      return Ok(Some(up.value));
    }
    RowsKeptReflexive(store.Snapshot());
    return Ok(None);
  }

  /**
   * The tail of `object_for_typepad_object`: a Photo's image is saved
   * first, then the Object.  A key stored meanwhile (the asset is its own
   * ancestor) is refused by the uniqueness constraint.
   */
  method SaveTpObject(store: Store, o: TpObject, author: AccountKey, body: string, parent: Option<ObjKey>)
    returns (res: Result<ObjKey>)
    requires store.Valid() && author in store.accounts
    requires parent.Some? ==> parent.value in store.objects
    modifies store
    ensures store.Valid()
    ensures RowsKept(old(store.Snapshot()), store.Snapshot())
    ensures store.persons == old(store.persons) && store.accounts == old(store.accounts)
    ensures store.stream == old(store.stream) && store.replies == old(store.replies)
    ensures o.objectType == "Photo" ==>
              && |store.media| == |old(store.media)| + 1
              && Downscaled(o.imageLink, store.media[|old(store.media)|])
    ensures o.objectType != "Photo" ==> store.media == old(store.media)
    ensures TpKey(o) in old(store.objects) ==> res == Err(DuplicateKey) && store.objects == old(store.objects)
    ensures TpKey(o) !in old(store.objects) ==>
              && res == Ok(TpKey(o))
              && store.objects == old(store.objects)[TpKey(o) := Obj(
                   if o.objectType == "Photo" then Image else Mixed,
                   o.title, Some(body), Some(o.published), o.permalinkUrl, author,
                   if o.objectType == "Photo" then Some(|old(store.media)|) else None,
                   parent)]
  {
    var image: Option<MediaId> := None;
    var mode := Mixed;
    RowsKeptReflexive(store.Snapshot());
    if o.objectType == "Photo" {
      var scaled := ScaledImage(o.imageLink);
      var id := store.AddMedia(scaled);
      image, mode := Some(id), Image;
    }
    ghost var withImage := store.Snapshot();
    res := store.InsertObject(TpKey(o),
      Obj(mode, o.title, Some(body), Some(o.published), o.permalinkUrl, author, image, parent));
    RowsKeptTransitive(old(store.Snapshot()), withImage, store.Snapshot());
  }

  // ---------------------------------------------------------------------
  // good_notes_for_notes

  /** The notifications that are never shown, whatever their asset. */
  predicate Dropped(n: Note)
  {
    || n.verb == "AddedNeighbor" || n.verb == "SharedBlog" || n.verb == "JoinedGroup"
    || n.obj.None?                                          // a deleted asset
    || n.obj.value.permalinkUrl.None?                       // an ancillary asset
    || (n.obj.value.source.Some? && n.obj.value.source.value.byUser)  // a boomerang
    || (n.obj.value.container.Some? &&
        (n.obj.value.container.value.urlId == "6p0120a5e990ac970c" ||
         n.obj.value.container.value.urlId == "6a013487865036970c0134878650f2970c"))
  }

  /** A new asset that replies to another is a Comment; one that reblogs another is a Reblog. */
  function Relabel(n: Note): Note
    requires n.obj.Some?
  {
    if n.verb == "NewAsset" && n.obj.value.inReplyTo.Some? then n.(verb := "Comment")
    else if n.verb == "NewAsset" && n.obj.value.reblogOf.Some? then n.(verb := "Reblog")
    else n
  }

  /** The asset types a plain new asset may have: a Post, or a Photo, Audio, Video or Link posted in a Group. */
  predicate OkayType(o: TpObject)
  {
    || o.objectType == "Post"
    || (o.container.Some? && o.container.value.objectType == "Group" &&
        (o.objectType == "Photo" || o.objectType == "Audio" || o.objectType == "Video" || o.objectType == "Link"))
  }

  /** The notification is shown. */
  predicate Kept(n: Note)
  {
    !Dropped(n) && (Relabel(n).verb == "NewAsset" ==> OkayType(n.obj.value))
  }

  /** The notifications `good_notes_for_notes` yields, relabelled, in their original order. */
  function GoodNotesOf(notes: seq<Note>): (good: seq<Note>)
    ensures forall m | m in good :: m.obj.Some?
  {
    if notes == [] then []
    else
      var last := notes[|notes| - 1];
      GoodNotesOf(notes[..|notes| - 1]) + (if Kept(last) then [Relabel(last)] else [])
  }

  /** `good_notes_for_notes`: each notification checked in turn, the shown ones relabelled and kept in order. */
  method GoodNotes(notes: seq<Note>) returns (good: seq<Note>)
    ensures good == GoodNotesOf(notes)
  {
    good := [];
    for i := 0 to |notes|
      invariant good == GoodNotesOf(notes[..i])
    {
      assert notes[..i + 1][..i] == notes[..i];
      var note := notes[i];
      if note.verb == "AddedNeighbor" || note.verb == "SharedBlog" || note.verb == "JoinedGroup" {
        continue;
      }
      if note.obj.None? {
        continue;
      }
      var obj := note.obj.value;
      if obj.permalinkUrl.None? {
        continue;
      }
      if obj.source.Some? && obj.source.value.byUser {
        continue;
      }
      if obj.container.Some? &&
         (obj.container.value.urlId == "6p0120a5e990ac970c" ||
          obj.container.value.urlId == "6a013487865036970c0134878650f2970c") {
        continue;
      }
      if note.verb == "NewAsset" {
        if obj.inReplyTo.Some? {
          note := note.(verb := "Comment");
        } else if obj.reblogOf.Some? {
          note := note.(verb := "Reblog");
        }
      }
      if note.verb == "NewAsset" {
        var okay := obj.objectType == "Post";
        if obj.container.Some? && obj.container.value.objectType == "Group" {
          okay := okay || obj.objectType == "Photo" || obj.objectType == "Audio"
                       || obj.objectType == "Video" || obj.objectType == "Link";
        }
        if !okay {
          continue;
        }
      }
      good := good + [note];
    }
    assert notes[..|notes|] == notes;
  }

  /**
   * The filter works note by note: the notes shown for two runs of
   * notifications are those of the first followed by those of the second.
   */
  lemma {:induction false} GoodNotesAppend(a: seq<Note>, b: seq<Note>)
    ensures GoodNotesOf(a + b) == GoodNotesOf(a) + GoodNotesOf(b)
    decreases |b|
  {
    if b == [] {
      assert a + b == a;
    } else {
      var init := b[..|b| - 1];
      GoodNotesAppend(a, init);
      assert (a + b)[..|a + b| - 1] == a + init;
    }
  }

  /**
   * What is yielded is exactly the shown notifications, relabelled: each
   * yielded note comes from a kept one, and every kept one is yielded.
   */
  lemma {:induction false} GoodNotesExactly(notes: seq<Note>)
    ensures forall m | m in GoodNotesOf(notes) :: exists n | n in notes && Kept(n) :: m == Relabel(n)
    ensures forall n | n in notes && Kept(n) :: Relabel(n) in GoodNotesOf(notes)
  {
    if notes != [] {
      var init := notes[..|notes| - 1];
      var last := notes[|notes| - 1];
      GoodNotesExactly(init);
      assert notes == init + [last];
      forall m | m in GoodNotesOf(notes)
        ensures exists n | n in notes && Kept(n) :: m == Relabel(n)
      {
        if m in GoodNotesOf(init) {
          var n :| n in init && Kept(n) && m == Relabel(n);
          assert n in notes;
        } else {
          assert Kept(last) && m == Relabel(last);
        }
      }
    }
  }

  // ---------------------------------------------------------------------
  // poll_typepad

  /** The stream verb for a notification verb: a favorite is a like, a new asset a post, a comment or reblog a reply. */
  function NoteVerb(verb: string): Option<Verb>
  {
    if verb == "AddedFavorite" then Some(Like)
    else if verb == "NewAsset" then Some(Post)
    else if verb == "Comment" || verb == "Reblog" then Some(Reply)
    else None
  }

  /** The UserStream row a notification writes on a root that has none: its actor, its stream verb and its time. */
  function NoteEntry(note: Note): StreamEntry
    requires NoteVerb(note.verb).Some?
  {
    StreamEntry(TpUserKey(note.actor), NoteVerb(note.verb).value, Some(note.published))
  }

  /** Where one notification was recorded: its Object and that Object's thread root. */
  datatype Placed = Placed(obj: ObjKey, root: ObjKey)

  /**
   * The rows of one notification are in place: a UserStream row on the
   * root, newly written only when there was none, with the notification's
   * actor, stream verb and time; and one reply row per Object between the
   * Object and the root.
   */
  ghost predicate NoteRecorded(store: Store, user: UserId, note: Note, p: Placed,
                               stream0: map<StreamKey, StreamEntry>, replies0: map<ReplyKey, ReplyEntry>)
    reads store
  {
    && store.Valid()
    && note.obj.Some? && p.obj == TpKey(note.obj.value) && p.obj in store.objects
    && p.root == RootOf(store.objects, store.rank, p.obj)
    && (StreamKey(user, p.root) in stream0 ==> store.stream == stream0)
    && (StreamKey(user, p.root) !in stream0 ==>
          && NoteVerb(note.verb).Some?
          && TpUserKey(note.actor) in store.accounts
          && store.stream == stream0[StreamKey(user, p.root) := NoteEntry(note)])
    && store.replies == ReplyRows(store.objects, user, p.root, Ancestry(store.objects, store.rank, p.obj), replies0)
  }

  /**
   * The UserStream part of one notification: nothing when the root already
   * has a row; otherwise the actor's Account, then the verb lookup, which
   * fails for a verb outside the table, then the new row.
   */
  method RecordNoteStream(store: Store, user: UserId, note: Note, root: ObjKey) returns (res: Result<()>)
    requires store.Valid() && root in store.objects
    modifies store
    ensures store.Valid() && store.rank == old(store.rank)
    ensures store.objects == old(store.objects) && store.replies == old(store.replies)
    ensures RowsKept(old(store.Snapshot()), store.Snapshot()) && StreamsKept(old(store.Snapshot()), store.Snapshot())
    ensures StreamKey(user, root) in old(store.stream) ==> res == Ok(()) && store.Snapshot() == old(store.Snapshot())
    ensures StreamKey(user, root) !in old(store.stream) && NoteVerb(note.verb).None? ==>
              res == Err(MissingKey(note.verb)) && store.stream == old(store.stream)
    ensures StreamKey(user, root) !in old(store.stream) && NoteVerb(note.verb).Some? ==>
              && res == Ok(())
              && TpUserKey(note.actor) in store.accounts
              && store.stream == old(store.stream)[StreamKey(user, root) :=
                   StreamEntry(TpUserKey(note.actor), NoteVerb(note.verb).value, Some(note.published))]
  {
    RowsKeptReflexive(store.Snapshot());
    if StreamKey(user, root) in store.stream {
      return Ok(());
    }
    var actor := AccountForTypepadUser(store, note.actor, None);
    ghost var withActor := store.Snapshot();
    var why := NoteVerb(note.verb);
    if why.None? {
      return Err(MissingKey(note.verb));
    }
    store.EnsureStream(StreamKey(user, root), StreamEntry(actor, why.value, Some(note.published)));
    RowsKeptTransitive(old(store.Snapshot()), withActor, store.Snapshot());
    res := Ok(());
  }

  /**
   * One pass of the notification loop: the asset's Object, its thread
   * root, the UserStream row on the root and the reply rows below it.
   */
  method ProjectNote(store: Store, user: UserId, note: Note, tidy: string -> string) returns (res: Result<Placed>)
    requires store.Valid() && note.obj.Some?
    modifies store
    ensures store.Valid()
    ensures RowsKept(old(store.Snapshot()), store.Snapshot()) && StreamsKept(old(store.Snapshot()), store.Snapshot())
    ensures res.Ok? ==> NoteRecorded(store, user, note, res.value, old(store.stream), old(store.replies))
    ensures AssetNormalises(old(store.objects), note.obj.value) && NoteVerb(note.verb).Some? ==> res.Ok?
    ensures !AssetNormalises(old(store.objects), note.obj.value) ==> res.Err?
    ensures res.Err? ==> store.stream == old(store.stream)
  {
    var made := ObjectForTypepadObject(store, note.obj.value, tidy);
    ghost var withObj := store.Snapshot();
    if made.Err? {
      return Err(made.failure);
    }
    var root := store.WalkToRoot(made.value);
    var row := RecordNoteStream(store, user, note, root);
    RowsKeptTransitive(old(store.Snapshot()), withObj, store.Snapshot());
    if row.Err? {
      return Err(row.failure);
    }
    ghost var withRow := store.Snapshot();
    store.RecordReplies(user, root, made.value);
    RowsKeptTransitive(old(store.Snapshot()), withRow, store.Snapshot());
    StreamsKeptTransitive(old(store.Snapshot()), withRow, store.Snapshot());
    res := Ok(Placed(made.value, root));
  }

  /** The notifications request's answer: the notes, newest first, or a failure status. */
  datatype NotesAnswer = Notifications(entries: seq<Note>) | NotesError(status: nat)

  /** The UserStream keys of the notifications whose projection succeeded. */
  function PlacedKeys(user: UserId, outcomes: seq<Result<Placed>>): set<StreamKey>
  {
    if outcomes == [] then {}
    else
      var last := outcomes[|outcomes| - 1];
      PlacedKeys(user, outcomes[..|outcomes| - 1]) + (if last.Ok? then {StreamKey(user, last.value.root)} else {})
  }

  lemma {:induction false} PlacedKeysAvoid(user: UserId, outcomes: seq<Result<Placed>>, root: ObjKey)
    requires forall l | 0 <= l < |outcomes| && outcomes[l].Ok? :: outcomes[l].value.root != root
    ensures StreamKey(user, root) !in PlacedKeys(user, outcomes)
  {
    if outcomes != [] {
      PlacedKeysAvoid(user, outcomes[..|outcomes| - 1], root);
    }
  }

  /** Notification `j` is the oldest one placed on its root, and the root had no row before the poll. */
  ghost predicate FirstPlaced(user: UserId, outcomes: seq<Result<Placed>>, j: int, stream0: map<StreamKey, StreamEntry>)
    requires 0 <= j < |outcomes| && outcomes[j].Ok?
  {
    && StreamKey(user, outcomes[j].value.root) !in stream0
    && forall l | 0 <= l < j && outcomes[l].Ok? :: outcomes[l].value.root != outcomes[j].value.root
  }

  /** Every notification so far whose asset normalises against `objects0` and whose verb is mapped was placed. */
  ghost predicate PlacedWhenNormalising(objects0: map<ObjKey, Obj>, good: seq<Note>, outcomes: seq<Result<Placed>>)
    requires |outcomes| <= |good| && forall i | 0 <= i < |good| :: good[i].obj.Some?
  {
    forall j | 0 <= j < |outcomes| ::
      AssetNormalises(objects0, good[j].obj.value) && NoteVerb(good[j].verb).Some? ==> outcomes[j].Ok?
  }

  /** A placed notification's Object is its own asset's, and it and the root's row are stored. */
  ghost predicate PlacedStored(t: Tables, user: UserId, good: seq<Note>, outcomes: seq<Result<Placed>>)
    requires |outcomes| <= |good| && forall i | 0 <= i < |good| :: good[i].obj.Some?
  {
    forall j | 0 <= j < |outcomes| && outcomes[j].Ok? ::
      && outcomes[j].value.obj == TpKey(good[j].obj.value)
      && outcomes[j].value.obj in t.objects
      && StreamKey(user, outcomes[j].value.root) in t.stream
  }

  /** A row that was not there before carries the entry of the oldest notification placed on it. */
  ghost predicate FirstNoteEntries(t: Tables, user: UserId, stream0: map<StreamKey, StreamEntry>, good: seq<Note>,
                                   outcomes: seq<Result<Placed>>)
    requires |outcomes| <= |good|
  {
    forall j | 0 <= j < |outcomes| && outcomes[j].Ok? && FirstPlaced(user, outcomes, j, stream0) ::
      && NoteVerb(good[j].verb).Some?
      && StreamKey(user, outcomes[j].value.root) in t.stream
      && t.stream[StreamKey(user, outcomes[j].value.root)] == NoteEntry(good[j])
  }

  /**
   * What the notification loop leaves in the tables `t` after the first
   * `|outcomes|` shown notifications, starting from the Objects `objects0`
   * and the stream rows `stream0`: a notification that can be placed is,
   * whatever became of the ones before it; the placed ones are stored; the
   * stream gains exactly their rows; and each new row is the oldest such
   * notification's.
   */
  ghost predicate NotesProjected(t: Tables, user: UserId, objects0: map<ObjKey, Obj>,
                                 stream0: map<StreamKey, StreamEntry>, good: seq<Note>, outcomes: seq<Result<Placed>>)
    requires |outcomes| <= |good| && forall i | 0 <= i < |good| :: good[i].obj.Some?
  {
    && PlacedWhenNormalising(objects0, good, outcomes)
    && PlacedStored(t, user, good, outcomes)
    && t.stream.Keys == stream0.Keys + PlacedKeys(user, outcomes)
    && FirstNoteEntries(t, user, stream0, good, outcomes)
  }

  /** One pass of the notification loop keeps NotesProjected. */
  lemma NotesStep(before: Tables, after: Tables, user: UserId, objects0: map<ObjKey, Obj>,
                  stream0: map<StreamKey, StreamEntry>, good: seq<Note>, outcomes: seq<Result<Placed>>, item: Result<Placed>)
    requires |outcomes| < |good| && forall i | 0 <= i < |good| :: good[i].obj.Some?
    requires NotesProjected(before, user, objects0, stream0, good, outcomes)
    requires ObjectsKept(objects0, before.objects)
    requires RowsKept(before, after) && StreamsKept(before, after)
    requires AssetNormalises(before.objects, good[|outcomes|].obj.value) && NoteVerb(good[|outcomes|].verb).Some? ==> item.Ok?
    requires item.Err? ==> after.stream == before.stream
    requires item.Ok? ==>
               && item.value.obj == TpKey(good[|outcomes|].obj.value)
               && item.value.obj in after.objects
               && (StreamKey(user, item.value.root) in before.stream ==> after.stream == before.stream)
               && (StreamKey(user, item.value.root) !in before.stream ==>
                     && NoteVerb(good[|outcomes|].verb).Some?
                     && after.stream == before.stream[StreamKey(user, item.value.root) := NoteEntry(good[|outcomes|])])
    ensures NotesProjected(after, user, objects0, stream0, good, outcomes + [item])
  {
    var next := outcomes + [item];
    var i := |outcomes|;
    assert next[..i] == outcomes;
    if AssetNormalises(objects0, good[i].obj.value) {
      AssetNormalisesKept(objects0, before.objects, good[i].obj.value);
    }
    assert PlacedWhenNormalising(objects0, good, next);
    assert PlacedStored(after, user, good, next);
    forall j | 0 <= j < |next| && next[j].Ok? && FirstPlaced(user, next, j, stream0)
      ensures && NoteVerb(good[j].verb).Some?
              && StreamKey(user, next[j].value.root) in after.stream
              && after.stream[StreamKey(user, next[j].value.root)] == NoteEntry(good[j])
    {
      if j == i {
        var root := item.value.root;
        forall l | 0 <= l < |outcomes| && outcomes[l].Ok?
          ensures outcomes[l].value.root != root
        {
          assert next[l] == outcomes[l];
        }
        PlacedKeysAvoid(user, outcomes, root);
        assert StreamKey(user, root) !in before.stream;
      } else {
        assert next[j] == outcomes[j];
        forall l | 0 <= l < j && outcomes[l].Ok?
          ensures outcomes[l].value.root != outcomes[j].value.root
        {
          assert next[l] == outcomes[l];
        }
        assert FirstPlaced(user, outcomes, j, stream0);
      }
    }
  }

  /**
   * `poll_typepad`: nothing happens for an account whose Person has no
   * user; otherwise the shown notifications are projected oldest first,
   * and one that fails is skipped without stopping the ones after it.
   * `outcomes[i]` is what became of the i-th shown notification.
   */
  method PollTypepad(store: Store, account: AccountKey, answer: NotesAnswer, tidy: string -> string)
    returns (res: Result<()>, ghost outcomes: seq<Result<Placed>>)
    requires store.Valid() && account in store.accounts
    modifies store
    ensures store.Valid()
    ensures RowsKept(old(store.Snapshot()), store.Snapshot())
    ensures StreamsKept(old(store.Snapshot()), store.Snapshot())
    ensures old(store.persons[store.accounts[account].person].user).None? ==>
              res == Ok(()) && store.Snapshot() == old(store.Snapshot())
    ensures old(store.persons[store.accounts[account].person].user).Some? && answer.NotesError? ==>
              res == Err(HttpStatus(answer.status)) && store.Snapshot() == old(store.Snapshot())
    ensures old(store.persons[store.accounts[account].person].user).Some? && answer.Notifications? ==>
              && res == Ok(())
              && |outcomes| == |GoodNotesOf(Reversed(answer.entries))|
              && NotesProjected(store.Snapshot(), old(store.persons[store.accounts[account].person].user).value,
                                old(store.objects), old(store.stream), GoodNotesOf(Reversed(answer.entries)), outcomes)
  {
    outcomes := [];
    res := Ok(());
    RowsKeptReflexive(store.Snapshot());
    var user := store.persons[store.accounts[account].person].user;
    if user.Some? {
      if answer.NotesError? {
        res := Err(HttpStatus(answer.status));
      } else {
        var good := GoodNotes(Reversed(answer.entries));
        outcomes := ProjectNotes(store, user.value, good, tidy);
      }
    }
  }

  /** The loop of `poll_typepad` over the shown notifications, in order, each in its own `try`. */
  method ProjectNotes(store: Store, user: UserId, good: seq<Note>, tidy: string -> string)
    returns (ghost outcomes: seq<Result<Placed>>)
    requires store.Valid() && forall i | 0 <= i < |good| :: good[i].obj.Some?
    modifies store
    ensures store.Valid()
    ensures RowsKept(old(store.Snapshot()), store.Snapshot())
    ensures StreamsKept(old(store.Snapshot()), store.Snapshot())
    ensures |outcomes| == |good|
    ensures NotesProjected(store.Snapshot(), user, old(store.objects), old(store.stream), good, outcomes)
  {
    outcomes := [];
    RowsKeptReflexive(store.Snapshot());
    for i := 0 to |good|
      invariant |outcomes| == i
      invariant store.Valid()
      invariant RowsKept(old(store.Snapshot()), store.Snapshot())
      invariant StreamsKept(old(store.Snapshot()), store.Snapshot())
      invariant NotesProjected(store.Snapshot(), user, old(store.objects), old(store.stream), good, outcomes)
    {
      ghost var before := store.Snapshot();
      var item := ProjectNote(store, user, good[i], tidy);
      NotesStep(before, store.Snapshot(), user, old(store.objects), old(store.stream), good, outcomes, item);
      RowsKeptTransitive(old(store.Snapshot()), before, store.Snapshot());
      StreamsKeptTransitive(old(store.Snapshot()), before, store.Snapshot());
      outcomes := outcomes + [item];
    }
  }
}

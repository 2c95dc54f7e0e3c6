# leapfrog ingestion core in Dafny

This project models the ingestion core of the leapfrog/rhino social-media
aggregator. Every service poller folds foreign items into one canonical store.
The store has these tables, each filled by get-or-create on its key:

- Media
- Person
- Account, keyed (service, ident)
- Object, keyed (service, foreign_id)
- UserStream, keyed (user, object)
- UserReplyStream, keyed (user, root, reply)

The pollers are Twitter, TypePad, Flickr and mlkshk. Beside them sits the
LiveJournal importer, which writes its own tables: Person, Identity, Group and
Asset.

Modules:

- `Text` (`text.dfy`): the string operations the pollers rely on. These are
  `replace`, `split`, `rsplit`, `lower`, whitespace removal, Python's clamped
  slices, and `str()`/`int()` on integers.
- `Entities` (`entities.dfy`): the rows, keys and failures shared by the
  pollers, and `Tables`, a snapshot of every table. It also defines the two
  relations between snapshots:
  - `RowsKept`: rows are only added, never removed or overwritten;
  - `StreamsKept`: stream rows are first-write-wins.
- `Thread` (`thread.dfy`): the walk up `in_reply_to` to a thread root and the
  chain of Objects below the root. Each Object carries a ghost rank that is
  higher than its parent's. A parent is always stored before its child, so
  the chain is acyclic and the walk terminates.
- `Storage` (`storage.dfy`): `class Store` holds the tables as fields, with
  one method per kind of insert. It also has the root walk and the reply-row
  loop shared by the Twitter and TypePad pollers.
- `Twitter`, `TypePad`, `Flickr`, `Mlkshk`: one module per poller. Each has:
  - its account get-or-create;
  - its Object normalisation, with deduplication by key;
  - the projection of each item onto the user's streams;
  - its pure helpers: tweet HTML splicing, photo downscaling, the Flickr
    signature base, and the mlkshk MAC header.
- `LjImport` (`ljimport.dfy`): the LiveJournal export importer, with
  `class Blog` for its tables. It covers:
  - OpenID and Atom id construction;
  - Person/Identity get-or-create;
  - friend groups and friends;
  - the upsert of posts and of threaded comments;
  - the decoding of a post's `allowmask` into the groups it is private to.

Network payloads are inputs. A reply's parent tweet is nested in the tweet,
the TypePad notifications are a parameter, and so on. The Flickr and mlkshk
HTTP clients are small classes that log every request they are sent and
answer with a function given at construction. The clock, random draws, MD5,
HMAC-SHA1/base64, HTML tidying and date parsing are parameters too.

## Model

| member | source | states |
|---|---|---|
| Text.ReplaceAll | rhino/poll/typepad.py:26 | every character of the result comes from the subject or from the replacement |
| Text.ReplaceAbsent | rhino/poll/twitter.py:227 | replacing a pattern that does not occur leaves the string unchanged |
| Text.ReplaceLeading | rhino/poll/twitter.py:227 | a leading occurrence is replaced, then replacement continues after it |
| Text.ReplaceChar | ljimport.py:47 | one-character replacement keeps the length and maps each position independently |
| Text.LowerChar | rhino/poll/twitter.py:225 | lowercasing neither creates nor removes whitespace |
| Text.LowerConcat | rhino/poll/twitter.py:225 | lowercasing distributes over concatenation |
| Text.StripSpaces | rhino/poll/twitter.py:228 | the result holds no whitespace and only characters of the input |
| Text.StripSpacesEmpty | rhino/poll/twitter.py:228-230 | removing whitespace gives the empty string exactly when the input is all whitespace |
| Text.Split | ljimport.py:125 | `split` yields at least one piece, none holding the separator, and exactly one (the input) when the separator is absent |
| Text.SplitNoSeparator | ljimport.py:125 | a string without the separator splits into itself |
| Text.SplitAtFirst | ljimport.py:125 | a separator-free head and the separator split off as the first piece |
| Text.SplitConcat | ljimport.py:125 | splitting around one separator is the concatenation of the splits of both sides |
| Text.SplitJoin | leapfrog/poll/mlkshk.py:29 | `join` then `split` on the same separator gives the parts back when none holds it |
| Text.LastSegment | leapfrog/poll/mlkshk.py:94 | `split(sep)[-1]` holds no separator |
| Text.LastSegmentIsSuffix | leapfrog/poll/mlkshk.py:94 | the last segment ends the string and is the whole string or follows a separator |
| Text.LastSegmentAfter | leapfrog/poll/mlkshk.py:94 | whatever precedes the last separator does not affect the last segment |
| Text.SplitOnce | leapfrog/poll/mlkshk.py:91 | `split(sep, 1)` fails exactly when the separator is absent; otherwise the head holds no separator and head + sep + tail is the input |
| Text.SplitOnceAt | leapfrog/poll/mlkshk.py:91 | the split is at the first separator, so the tail may hold more of them |
| Text.Reversed | rhino/poll/typepad.py:199 | `reversed` keeps the length and puts element i at position n-1-i |
| Text.NatToString | rhino/poll/twitter.py:19 | `str()` of a natural is a non-empty string of digits |
| Text.ParseInt | ljimport.py:135 | `int()` refuses the empty string |
| Text.DigitsRoundTrip | rhino/poll/twitter.py:19 | reading back the digits of `str(n)` gives n |
| Text.ParseIntRoundTrip | ljimport.py:135 | `int(str(n)) == n` for naturals |
| Text.IntToStringRoundTrip | ljimport.py:138 | `int('%d' % n) == n` for every integer, negative ones included |
| Thread.RootOf | rhino/poll/twitter.py:296-299 | the walk up `in_reply_to` ends at a stored Object with no parent |
| Thread.Ancestry | rhino/poll/twitter.py:305-309 | the Objects visited by the reply walk are all stored |
| Thread.AncestryIsChain | rhino/poll/twitter.py:305-309 | the walk is empty exactly for a root; it starts at the Object, follows each `in_reply_to`, ends just below the root, never contains the root, and all its nodes share the root |
| Thread.AncestryDistinct | rhino/poll/twitter.py:305-309 | the walk visits no Object twice and is bounded by the Object's rank, so it terminates |
| Thread.RootAfterInsert | rhino/poll/twitter.py:233-244 | saving a new Object whose parent is stored keeps the chain acyclic, leaves every stored Object's root unchanged, and gives the new Object its parent's root (or itself when it has none) |
| Storage.Store.AddMedia | rhino/poll/twitter.py:22-27 | `Media.save()` appends exactly one row and changes nothing else |
| Storage.Store.AddPerson | rhino/poll/twitter.py:28-33 | `Person.save()` appends exactly one row and changes nothing else |
| Storage.Store.AddAccount | rhino/poll/twitter.py:34-44 | `Account.save()` on a fresh key adds exactly that Account |
| Storage.Store.InsertObject | rhino/poll/twitter.py:233-244 | saving a new Object adds it under its key; a key already stored is refused by the unique constraint and nothing changes |
| Storage.Store.UpdateObject | leapfrog/poll/mlkshk.py:115-120 | re-saving a stored Object rewrites only that Object and keeps stream rows |
| Storage.Store.EnsureStream | rhino/poll/twitter.py:291-292 | the UserStream get-or-create writes the row only when the key is absent (first write wins) |
| Storage.Store.WalkToRoot | rhino/poll/twitter.py:296-299 | the `while root.in_reply_to` loop returns the thread root, a stored Object with no parent |
| Storage.Store.RecordReplies | rhino/poll/twitter.py:305-309 | the loop leaves the reply table equal to one get-or-create per node of the walk below the root, and changes nothing else |
| Storage.ReplyRowsSpec | rhino/poll/twitter.py:305-309 | after the loop the reply rows are the old ones plus (user, root, n) for each node n of the walk; existing rows are kept, and new rows carry the root's and the node's times |
| Twitter.SynthesizeEntities | rhino/poll/twitter.py:101-133 | a tweet with entities is unchanged (idempotent); otherwise it gains all three lists, one entry per match, with no expanded url and the screen name as the mention name |
| Twitter.UrlMutations | rhino/poll/twitter.py:55-60 | one mutation per url entity, the i-th built from the i-th entity |
| Twitter.MentionMutations | rhino/poll/twitter.py:61-65 | one mutation per mention, the i-th built from the i-th mention |
| Twitter.HashtagMutations | rhino/poll/twitter.py:66-70 | one mutation per hashtag, the i-th built from the i-th hashtag |
| Twitter.InsertDesc | rhino/poll/twitter.py:72 | inserting into the sorted list is a permutation: it adds exactly the new mutation |
| Twitter.InsertDescending | rhino/poll/twitter.py:72 | insertion keeps the list in descending order of start |
| Twitter.SortDesc | rhino/poll/twitter.py:72 | `sorted(..., reverse=True)` is a permutation of the mutations |
| Twitter.SortDescSorted | rhino/poll/twitter.py:72 | the sorted list is in descending order of start and is a permutation of the input |
| Twitter.ApplyRendered | rhino/poll/twitter.py:72-74 | applying well-placed mutations right to left equals replacing every original span by its html, keeping all text outside the spans |
| Twitter.SortedWellPlaced | rhino/poll/twitter.py:72-74 | non-overlapping, in-range spans are well placed once sorted by descending start |
| Twitter.TweetBodyRendered | rhino/poll/twitter.py:49-76 | for non-overlapping entity spans, `tweet_html` replaces each original span by its anchor html and keeps all other text |
| Twitter.TweetHtml | rhino/poll/twitter.py:49-76 | the loop computes the tweet body; with no entities it is the text unchanged |
| Twitter.CollectMutations | rhino/poll/twitter.py:54-70 | the three loops build the list of links, then mentions, then hashtags |
| Twitter.AppendUrlMutations | rhino/poll/twitter.py:55-60 | the url loop appends exactly the url mutations, in entity order, to what the list held |
| Twitter.AppendMentionMutations | rhino/poll/twitter.py:61-65 | the mention loop appends exactly the mention mutations, in entity order |
| Twitter.AppendHashtagMutations | rhino/poll/twitter.py:66-70 | the hashtag loop appends exactly the hashtag mutations, in entity order |
| Twitter.CollapseTitleAndLink | rhino/poll/twitter.py:221-231 | a tweet made of the target's title in any letter case, whitespace and the link collapses to the empty string, so it is a share |
| Twitter.CollapseLinkThenTitle | rhino/poll/twitter.py:221-231 | the link, whitespace and the target's title in any letter case collapse to the empty string too, when the title does not start with whitespace |
| Twitter.CollapseKeepsCommentary | rhino/poll/twitter.py:222-231 | when the target has no title, any non-space character outside the link keeps the tweet from collapsing |
| Twitter.AccountForTwitterUser | rhino/poll/twitter.py:17-46 | a stored Account is returned with nothing changed; otherwise exactly one Account with the background fields is created, preceded by one 48x48 Media and one Person only when no Person is given |
| Twitter.RawObjectForTweet | rhino/poll/twitter.py:175-246 | a stored tweet gives (False, it) with nothing changed; a collapsing link gives (True, target) and saves nothing; otherwise one new `status` Object is saved with the reply's parent or the link's target; a non-reply without entities fails; it succeeds exactly when the tweet normalises (`Normalises`) against the Objects it started from, and then the Objects gained are exactly `NewTweetKeys` |
| Twitter.NewTweetKeysShrink | rhino/poll/twitter.py:184-209 | storing more Objects only shrinks the set of tweet Objects normalising a tweet saves |
| Twitter.NormalisesKept | rhino/poll/twitter.py:184-231 | a tweet that normalises still does once more Objects are stored, so what earlier items store never makes a later item fail |
| Twitter.SaveReply | rhino/poll/twitter.py:191-246 | a new reply is saved under its parent's key; it succeeds exactly when it normalises, adding exactly `NewTweetKeys` |
| Twitter.ReplyOutcome | rhino/poll/twitter.py:191-246 | normalising the parent, then saving the reply, succeeds and saves exactly what `Normalises` and `NewTweetKeys` say of the reply |
| Twitter.SaveLinked | rhino/poll/twitter.py:211-246 | a non-reply (`LinkedSaved`): a share returns its target and changes nothing; otherwise the saved Object is the new status whose parent is the sole link's target; missing `entities` fails; success exactly when it normalises, adding exactly `NewTweetKeys` |
| Twitter.ShareOrSave | rhino/poll/twitter.py:226-246 | never fails: a share returns its target with nothing stored; otherwise exactly the new `status` Object is saved, with the link's parent; either way what it leaves is `LinkedSaved` |
| Twitter.LinkedSavedByShare | rhino/poll/twitter.py:226-232 | a share of a new non-reply, stored nowhere, normalises and adds no keys |
| Twitter.LinkedSavedBySave | rhino/poll/twitter.py:233-246 | a new non-reply with urls that is not a share normalises and adds exactly its own key, holding the new status Object |
| Twitter.ParentForReply | rhino/poll/twitter.py:191-209 | a stored parent is used as it is; a parent fetch with a non-200 status fails and stores nothing; it succeeds exactly when the parent is stored or was fetched and normalises, and then adds exactly the fetched parent's new keys |
| Twitter.ParentForLink | rhino/poll/twitter.py:211-231 | a missing `entities` or `urls` fails; otherwise the parent is the resolved target of the single link, if any, and the tweet is a share exactly when it collapses |
| Twitter.SaveTweet | rhino/poll/twitter.py:233-246 | the new tweet Object is stored once with its body, time, permalink, author and parent; a duplicate key fails |
| Twitter.ProjectTweet | rhino/poll/twitter.py:265-319 | one timeline item: the posting Account exists; a retweet is a share; a non-share's Object is the tweet's own; the item's stream rows are recorded; it succeeds exactly when the item's tweet normalises, and the stream gains exactly the row on its root, nothing when it fails |
| Twitter.RecordItem | rhino/poll/twitter.py:290-319 | a plain post gets a post row on itself; a reply gets a reply row on its root plus one reply row per node below it; a share gets a share row on the root with the retweeting account as actor; all are first-write-wins |
| Twitter.RecordReply | rhino/poll/twitter.py:295-309 | a reply: a reply row on its thread root by the tweet's author, first-write-wins, plus one reply row per node below the root |
| Twitter.PollTwitter | rhino/poll/twitter.py:249-322 | no user: nothing happens; authinfo without ':' or a failed timeline request fails with nothing stored; otherwise `outcomes[i]` is item i's fate: every item whose tweet normalises against the Objects before the poll succeeds whatever became of earlier items, each success has its tweet and root row stored, the stream gains exactly the successes' rows, and a new row holds the oldest success on that root |
| Twitter.ProjectTimeline | rhino/poll/twitter.py:265-322 | the loop over `reversed(tl)` leaves exactly what `PollTwitter` states of the items, from the tables before it |
| Twitter.TimelineStep | rhino/poll/twitter.py:265-322 | one pass of the loop, with the item's own guarantees, keeps those statements for one more item |
| TypePad.AccountForTypepadUser | rhino/poll/typepad.py:17-49 | a stored Account is returned with nothing changed; otherwise one Account, preceded by an avatar and a Person when none is given; the avatar is the 50x50 `50si` rendition when there is a template, else the link's own url and size |
| TypePad.DownscaledUnique | rhino/poll/typepad.py:94-106 | the downscaling relation determines the image uniquely |
| TypePad.ScaledImage | rhino/poll/typepad.py:94-106 | the image follows the downscaling rule; an oversized templated image gets its longer side 1024 and both sides at most 1024 |
| TypePad.ObjectForTypepadObject | rhino/poll/typepad.py:52-120 | a stored asset is returned with nothing changed; otherwise the new Object carries the asset's fields, author and parent, shown as an image with one downscaled Media for a Photo and as mixed otherwise; it succeeds exactly when `AssetNormalises` holds, adding exactly the `NewAssetKeys` |
| TypePad.NewAssetKeysShrink | rhino/poll/typepad.py:52-82 | storing more Objects only shrinks the set of Objects normalising an asset saves |
| TypePad.AssetNormalisesKept | rhino/poll/typepad.py:52-82 | an asset that normalises still does once more Objects are stored |
| TypePad.SaveNewAsset | rhino/poll/typepad.py:61-120 | an asset not yet stored: author, parent, then the normalised Object; success exactly when `AssetNormalises`, adding exactly `NewAssetKeys` |
| TypePad.AuthorAndParent | rhino/poll/typepad.py:63-82 | the author's Account exists; the parent succeeds exactly when it normalises, adding exactly its new keys, and no parent stores nothing |
| TypePad.AssetOutcome | rhino/poll/typepad.py:61-120 | normalising the parent, then saving the asset, succeeds and saves exactly what `AssetNormalises` and `NewAssetKeys` say of the asset |
| TypePad.SaveAsset | rhino/poll/typepad.py:64-118 | with the author and parent in place, a new asset is saved exactly once as its normalised Object; a stored key fails as a duplicate |
| TypePad.ParentForTpObject | rhino/poll/typepad.py:79-82 | the parent is normalised first and its key is the one `ParentKeyOf` names; no parent changes nothing; otherwise it succeeds exactly when the parent normalises, adding exactly its new keys |
| TypePad.SaveTpObject | rhino/poll/typepad.py:68-118 | a Photo adds exactly one Media and is shown as an image; other types add none and are shown mixed; the Object is saved once, and a duplicate key fails |
| TypePad.GoodNotesOf | rhino/poll/typepad.py:123-169 | every yielded notification has an asset |
| TypePad.GoodNotes | rhino/poll/typepad.py:123-169 | the filter loop yields exactly the specified notifications |
| TypePad.GoodNotesAppend | rhino/poll/typepad.py:123-169 | the filter works item by item, so it never reorders: filtering a concatenation is concatenating the filtered parts |
| TypePad.GoodNotesExactly | rhino/poll/typepad.py:127-169 | what is yielded is exactly the relabelled notifications not dropped by verb, deletion, missing permalink, boomerang, container or type |
| TypePad.RecordNoteStream | rhino/poll/typepad.py:207-217 | a root that already has a row is left alone; otherwise the row gets the actor, the verb map's verb and the note's time; an unmapped verb fails |
| TypePad.ProjectNote | rhino/poll/typepad.py:200-223 | one notification: its Object, a first-write-wins row on the root, and one reply row per node below the root; it succeeds whenever its asset normalises and its verb is mapped, fails when the asset does not normalise, and a failure leaves the stream alone |
| TypePad.PollTypepad | rhino/poll/typepad.py:190-226 | no user: nothing happens; a failed request fails; otherwise `outcomes[i]` is the i-th shown notification's fate, oldest first, with the loop's guarantees below |
| TypePad.ProjectNotes | rhino/poll/typepad.py:199-226 | a notification that normalises with a mapped verb succeeds whatever became of earlier ones; each success has its own asset's Object and its root's row stored; the stream gains exactly the successes' rows; a new row carries the oldest success's actor, verb and time |
| TypePad.NotesStep | rhino/poll/typepad.py:199-226 | one pass of the loop, with the notification's own guarantees, keeps the loop's statements for one more notification |
| Flickr.FlickrClient.Send | rhino/poll/flickr.py:84-85 | one request is logged and the service's answer returned |
| Flickr.BelowAsymmetric | rhino/poll/flickr.py:63 | Python string order is irreflexive and asymmetric |
| Flickr.BelowTransitive | rhino/poll/flickr.py:63 | Python string order is transitive |
| Flickr.BelowTotal | rhino/poll/flickr.py:63 | Python string order is total on distinct strings |
| Flickr.LeastExists | rhino/poll/flickr.py:63 | a non-empty key set has a least key |
| Flickr.LeastUnique | rhino/poll/flickr.py:63 | the least key is unique |
| Flickr.SortedKeysSpec | rhino/poll/flickr.py:63 | `sorted` lists each key exactly once, in strictly ascending order |
| Flickr.SortedKeysUnique | rhino/poll/flickr.py:63 | only one strictly ascending list holds a given set of keys, so the base does not depend on insertion order |
| Flickr.SignBaseLeastFirst | rhino/poll/flickr.py:63 | the sign base is the least key and its value, then the base of the remaining entries |
| Flickr.SignFlickrQuery | rhino/poll/flickr.py:62-69 | `api_sig` is the only key added; it is md5(secret + sign base); all other entries are unchanged |
| Flickr.UnsignedQuery | rhino/poll/flickr.py:72-77 | the query holds the arguments plus `api_key`, `method`, format=json and nojsoncallback=1, which override same-named arguments |
| Flickr.CallFlickr | rhino/poll/flickr.py:72-93 | exactly one request, signed after the fixed parameters are in when asked; non-200 fails, stat other than ok fails, otherwise the payload |
| Flickr.FlickrDisplayName | rhino/poll/flickr.py:39-47 | `display_name or nsid`: the real name when present and non-empty, else the nsid |
| Flickr.NewFlickrAccount | rhino/poll/flickr.py:18-51 | with a given Person only the Account is created; otherwise a 48x48 buddy icon unless iconfarm is 0, then the Person (failing without a real name), then the Account |
| Flickr.AccountForFlickrId | rhino/poll/flickr.py:12-51 | a stored Account is returned with no request and nothing changed; otherwise exactly one getInfo request for the nsid, and the Account carries the display name; it succeeds exactly when the Account is stored or the getInfo answer is an ok person with a real name where a Person must be made |
| Flickr.PhotoUrlSegments | rhino/poll/flickr.py:96-97 | the photo url splits at '/' into scheme, empty, farm host, server and `id_secret_b.jpg` |
| Flickr.StorePhoto | rhino/poll/flickr.py:107-120 | a stored photo Object is reused with no request; otherwise one `photo` Object with title, permalink and owner's Account is saved; it succeeds exactly when the photo is stored or its owner's Account can be given, and a failure changes no Object or Account |
| Flickr.SaveNewPhoto | rhino/poll/flickr.py:109-120 | a photo not stored yet: on success exactly the photo Object is added, with its owner's Account; it succeeds exactly when that Account can be given, and a failure changes no Object or Account |
| Flickr.PhotoReadyKept | rhino/poll/flickr.py:107-120 | a photo that can be stored still can once rows are added |
| Flickr.ProjectPhoto | rhino/poll/flickr.py:106-123 | the photo's Object is stored and the user's stream has a post row on it, written only if absent; it succeeds exactly when the photo is ready, and a failing photo is still not ready afterwards |
| Flickr.PollFlickr | rhino/poll/flickr.py:100-123 | no user: nothing happens and nothing is requested; otherwise a signed getContactsPhotos request with the auth token; an answer that is not an ok photo list fails storing nothing; with every listed photo ready the poll succeeds and every photo has its stream row; a failure stops at a photo that cannot be stored, with the rows of every photo before it kept |
| Flickr.PollContactsPhotos | rhino/poll/flickr.py:105-123 | the signed request is sent first; a bad answer fails storing nothing; with every listed photo ready it succeeds and every photo has its row; a failure stops at an unready photo, with the rows of the photos before it recorded |
| Flickr.RequestContactsPhotos | rhino/poll/flickr.py:105 | exactly one signed getContactsPhotos request carrying the auth token; a non-200 status or a non-"ok" stat fails, otherwise the payload is returned |
| Flickr.ProjectPhotos | rhino/poll/flickr.py:106-123 | the photo loop records every photo of the list; it succeeds whenever every photo is ready before the loop; a failure stops at some photo that is not ready at the end, and every photo before that one has its stream row |
| Mlkshk.AuthstringFields | leapfrog/poll/mlkshk.py:19-20 | the header gives back token, timestamp, nonce and signature, in that order, when cut at its quotes |
| Mlkshk.NormalStringFields | leapfrog/poll/mlkshk.py:29 | the base string is the eight fields token, timestamp, nonce, method, netloc, port, path and query, joined by newlines, with the port always "80" |
| Mlkshk.Nonce | leapfrog/poll/mlkshk.py:25 | the nonce is ten letters |
| Mlkshk.SignFields | leapfrog/poll/mlkshk.py:23-37 | the header carries the token, the clock's seconds as digits, a ten-letter nonce and the MAC of the base string built from those same fields |
| Mlkshk.MlkshkClient.Send | leapfrog/poll/mlkshk.py:48-49 | one request is logged and the service's answer returned |
| Mlkshk.CallMlkshk | leapfrog/poll/mlkshk.py:40-56 | exactly one request; Authorization is set to the signed header only when a token is given; other headers pass unchanged; non-200 and invalid JSON fail |
| Mlkshk.AccountForMlkshkUserinfo | leapfrog/poll/mlkshk.py:59-83 | a stored Account is returned with nothing changed; otherwise no Media, a Person with the `/user/<name>` permalink only when none is given, then the Account |
| Mlkshk.SharekeyOfPage | leapfrog/poll/mlkshk.py:94 | the share key is what follows the page's last '/' |
| Mlkshk.SavePost | leapfrog/poll/mlkshk.py:96-120 | a stored Object is reused with no new Media but its author, title, permalink and render mode are overwritten; a new one gets one Media first |
| Mlkshk.ProjectPost | leapfrog/poll/mlkshk.py:93-124 | the upsert, then a post row on the Object written only when absent; only the post's Object changes, and it shows the post |
| Mlkshk.ShowsLatestStep | leapfrog/poll/mlkshk.py:93-124 | upserting one more post keeps every earlier post that is still the latest of its key shown by its Object |
| Mlkshk.ShowsLatestStored | leapfrog/poll/mlkshk.py:93-124 | when the latest posts are shown, every post of the list, repeated key or not, has a stored Object |
| Mlkshk.ProjectPosts | leapfrog/poll/mlkshk.py:93-124 | every post of the friend shake has its Object and its stream row; a post that no later post shares a key with is shown by its Object: author, title, page and image render mode are that post's |
| Mlkshk.PollMlkshk | leapfrog/poll/mlkshk.py:86-124 | no user: nothing happens; authinfo without ':' fails before any request; otherwise one signed request with token and secret split at the first ':'; it succeeds exactly when the answer is a 200 whose JSON has `friend_shake`, and then every post has its row and the latest post of each key is shown by its Object; a failure stores nothing |
| Mlkshk.PollFriendShake | leapfrog/poll/mlkshk.py:92-124 | one signed GET of the friend shake; a non-200 status, a body that is not JSON and a missing `friend_shake` each fail with their own error and store nothing; otherwise it succeeds, every post has its row, and the latest post of each key is shown by its Object |
| LjImport.OpenidForUnderscoreName | ljimport.py:45-46 | a user name starting with '_' gives `http://users.<domain>/<username>/` unchanged |
| LjImport.OpenidHostLabel | ljimport.py:47-48 | otherwise the OpenID is `http://<username>.<domain>/` with every '_' turned into '-' and no '_' left in the host label |
| LjImport.OpenidInjective | ljimport.py:44-48 | distinct host-label user names without '-' get distinct OpenIDs |
| LjImport.ServerDomainLastTwo | ljimport.py:125 | the server domain is the last two labels of a host with at least three |
| LjImport.ServerDomainTwoLabels | ljimport.py:125 | a two-label server keeps only its last label |
| LjImport.ServerDomainNoDot | ljimport.py:125 | a server without a dot gives the empty domain |
| LjImport.DefaultAtomPrefixShape | ljimport.py:127-128 | the default prefix is `urn:lj:<domain>:` ... `:atom1:<username>:` |
| LjImport.CommentAtomIdExtends | ljimport.py:75 | a comment's Atom id extends its parent's with `:talk:`, so the two never coincide |
| LjImport.CommentAtomIdInjective | ljimport.py:75 | comments on one parent with different `jtalkid`s get different Atom ids |
| LjImport.GroupTagInjective | ljimport.py:138 | distinct group ids give distinct tags |
| LjImport.PropsDict | ljimport.py:83-87 | the props loop builds the props dictionary |
| LjImport.PropsLastWins | ljimport.py:165-169 | a name is in the dictionary exactly when some prop carries it, and it maps to the last such prop's value |
| LjImport.PreformattedNumber | ljimport.py:92 | for a printed number both flag readings say preformatted exactly when it is non-zero |
| LjImport.PreformattedEmpty | ljimport.py:182 | an empty flag is "not preformatted" for a comment but an `int()` error for a post |
| LjImport.MaskIdsSpec | ljimport.py:213-222 | the selected ids are exactly those in 1..n-1 whose bit is set and whose group exists, in ascending order |
| LjImport.MaskIdsInGroups | ljimport.py:220-222 | every selected id has a group |
| LjImport.MaskGroupsStep | ljimport.py:213-222 | one more loop turn appends group i exactly when its bit is set and it exists |
| LjImport.ShiftedZeroStays | ljimport.py:214-216 | once the mask has shifted to zero it stays zero |
| LjImport.MaskIdsSettled | ljimport.py:214-216 | the early `break` loses nothing: no later bit is set |
| LjImport.ShiftedHalf | ljimport.py:214 | shifting by i+1 is one shift, then i more |
| LjImport.MaskIdsAgree | ljimport.py:213-222 | masks agreeing on bits 1..n-1 select the same groups |
| LjImport.MaskIgnoresBitZero | ljimport.py:213-214 | bit 0 of the allowmask is ignored |
| LjImport.MaskIgnoresHighBits | ljimport.py:213 | bits 30 and up are ignored |
| LjImport.DecodeMask | ljimport.py:213-222 | the loop, with its early exit, yields the groups of bits 1..29 in ascending id order |
| LjImport.ReimportAddsNoAsset | ljimport.py:78-81 | re-importing assets whose Atom ids are stored creates no new Asset |
| LjImport.Blog.PersonForOpenid | ljimport.py:51-63 | a known OpenID gives its Person with nothing changed; otherwise exactly one Person and one Identity are created |
| LjImport.Blog.EnsureGroup | ljimport.py:139-140 | the Group get-or-create: the tag exists afterwards and an existing Group keeps its name |
| LjImport.Blog.SetGroups | ljimport.py:152 | the Person's groups become exactly the given list |
| LjImport.Blog.SaveAsset | ljimport.py:112 | saving writes exactly the Asset under its Atom id |
| LjImport.ParseAllSpec | ljimport.py:150 | the id texts parse exactly when each is a number, giving those numbers in order; otherwise the error names a text that is not a number |
| LjImport.LookupAllSpec | ljimport.py:152 | `[group_objs[id] for id in ids]` succeeds exactly when every id has a group, giving those groups in order |
| LjImport.ImportGroups | ljimport.py:133-141 | only the Group table changes; every Group made is named after an element with its tag; the id map sends every id to its Group's tag; a non-numeric id fails with that error |
| LjImport.ImportFriend | ljimport.py:143-152 | the friend's OpenID gets a Person (new only on a miss); its groups are set to exactly the listed groups, and a non-numeric or unknown group id fails without changing memberships |
| LjImport.ImportFriends | ljimport.py:143-152 | on success every friend's OpenID has a Person; Groups and Assets are untouched |
| LjImport.TreeIds | ljimport.py:116-117 | every Atom id in a comment's tree is longer than its parent's |
| LjImport.ForestIds | ljimport.py:116-117 | every Atom id in a list of comment trees is longer than the parent's |
| LjImport.SaveComment | ljimport.py:74-112 | a bad preformatted flag fails with nothing changed; otherwise the comment's row, found or made by its Atom id, is written and nothing else |
| LjImport.ImportComment | ljimport.py:73-117 | only the Atom ids of the comment's tree change; on success the comment is saved and every comment of the tree replies to its direct parent, is in the parent's thread and has the parent's privacy |
| LjImport.ThreadedTree | ljimport.py:100-101 | a comment threaded under its parent, with threaded replies, makes its whole tree threaded |
| LjImport.ImportReplies | ljimport.py:116-117 | the replies loop changes only its trees' Atom ids and threads all of them under the parent's thread |
| LjImport.UndatedEventFails | ljimport.py:174-175 | a post with no date aborts on the assertion |
| LjImport.SaveEvent | ljimport.py:156-198 | a post that cannot be read fails with nothing changed; otherwise its row, found or made by its Atom id, is written with title, author, date, body and imported flag, and its privacy is untouched |
| LjImport.UsemaskPrivacy | ljimport.py:206-225 | a usemask post is private to exactly the existing groups whose bit in 1..29 is set, ascending |
| LjImport.NewPrivacy | ljimport.py:201-225 | the privacy computation, loop included, gives the specified privacy |
| LjImport.PrivacyInGroups | ljimport.py:201-225 | a post is only ever private to Groups that exist |
| LjImport.SetPrivacy | ljimport.py:201-225 | without a "private" Group the lookup fails with nothing changed; otherwise only `private_to` of the post changes, to the decoded privacy |
| LjImport.ImportEvent | ljimport.py:155-229 | only the post's and its comments' Atom ids change; on success the post is saved with its privacy, and all its comments are threaded on it with its privacy |
| LjImport.ImportPosts | ljimport.py:155-229 | only the export's Atom ids change, and on success every post is stored |
| LjImport.ImportEvents | ljimport.py:120-229 | the owner's OpenID has a Person; only the export's Atom ids change; on success every friend has a Person and every post is stored |

## Left out

- HTTP and OAuth transport are not modelled, including response reasons and
  the `oauth2.Client` request. Fetched payloads are inputs (`Tweet.replyTo`,
  `NotesAnswer`, `TimelineAnswer`). For Flickr and mlkshk they are the
  answer functions of `FlickrClient` and `MlkshkClient`.
- `rhino/poll/embedlam.py` is not part of this model. Link resolution in
  `raw_object_for_tweet` is a map from url to a stored Object. A url missing
  from the map is the `ValueError` case: the tweet stays a plain status with
  no parent. The shipped module lacks the resolver the poll calls; see the
  line on rhino/poll/twitter.py:217 below.
- The regular expressions in `synthesize_entities` are not modelled. What
  they find is the `Scan` input, in text order.
- MD5, HMAC-SHA1 and base64 are function parameters (`md5`, `mac`).
  `time.time()` is the `now` parameter. The random nonce is the `draws`
  parameter, one index into `string.letters` per draw.
- `datetime.strptime` is not modelled. Dates are `Time` values, and the
  LiveJournal importer parses them with `Formats.date`. A date it refuses is
  a `BadTime` failure.
- HTML rewriting is not modelled. This covers `format_soup`, lj-raw/lj-cut
  unwrapping, `tidy_fragment` and the TypePad reblog blockquote stripping
  (rhino/poll/typepad.py:84-92). The first three are the function parameters
  in `Formats` and `tidy`. The reblog stripping is not modelled at all: the
  body of a reblog is the tidied body.
- The following are not modelled:
  - logging and the `bin` helper;
  - argparse and `main` in ljimport.py;
  - rhino/admin.py, rhino/urls.py and setup.py;
  - `object_from_url` (rhino/poll/typepad.py:172-187);
  - `object_from_twitpic_url`;
  - the empty stubs at rhino/poll/flickr.py:54-59;
  - concurrent pollers racing on a get-or-create.
- The chain rewriting at rhino/poll/typepad.py:146-159 is not modelled. It
  re-fetches parents through `t.assets.get` and, at line 158, reads
  `obj.reblog_of`. The model keeps only the relabelling to Comment or Reblog.
- rhino/poll/twitter.py:203 names an undefined `account` when a parent fetch
  fails. Either way the item aborts, so the model gives `HttpStatus` with the
  fetch's status.
- rhino/poll/flickr.py:9 does not import `Object` or `UserStream`, which lines
  108 and 122 use. The model assumes they are imported.
- rhino/poll/twitter.py:217 calls `rhino.poll.embedlam.object_for_url`, but
  rhino/poll/embedlam.py defines only `DiscoveryConsumer`, `EmbedError` and
  `embed`. As shipped, the call raises `AttributeError`, which the
  `except ValueError` at line 218 does not catch. Every new tweet that is
  not a reply and has exactly one url therefore aborts. That includes a
  fetched reply parent of that shape. The per-item handler at lines 321-322
  then skips the item, after line 277 has already saved the actor's
  Account. The model instead assumes a working resolver: the `resolve` map
  of `Twitter.ParentForLink` and `Twitter.SaveLinked`. With it, such a
  tweet becomes a share or a linked status, and is never a failure.
- A failure that Python raises as an exception is a `Result` error. The
  per-item `except` blocks of the Twitter and TypePad polls skip the item,
  and the whole import or poll aborts where the source has no handler. An
  `assert` stripped under `python -O` is not modelled.
- Payload fields the source reads with `[]` are assumed present, except
  where a missing key is modelled as `MissingKey`: `entities`, `urls`,
  `realname`, and an unmapped TypePad verb. `str()` and `int()` are modelled
  on natural ids.
- Strings are sequences of characters:
  - `encode('utf8')` is not modelled;
  - `lower()` is ASCII-only;
  - `int()` does not skip surrounding whitespace;
  - a url is given already split into netloc, path and query (`Uri`).
- A Flickr query is a map from names to rendered values. `urlencode` and
  the url it builds are not modelled.
- The Django m2m fields `groups` and `private_to` are sequences in assignment
  order. Saving a comment and then assigning its `private_to` is one write
  of the row.
- An absent XML text or attribute is the empty string: subject, date,
  poster, fullname and the id texts. The model does not distinguish `None`
  from `''`. An absent `allowmask` on a usemask post is a `NoneValue`
  failure.
- A new mlkshk Object's author before its first assignment is a
  placeholder. The refresh always overwrites it.
- Twitter.PollTwitter: an item is promised success when its tweet normalises
  against the Objects from before the poll. An item can also succeed through
  an Object an earlier item stored; that exact condition is stated only per
  item, by `Twitter.ProjectTweet`. A new stream row's entry is stated for the
  oldest success on its root. Reply rows are stated per item by
  `Twitter.RecordItem`, not by the poll.
- Twitter.ProjectTimeline: the same as `Twitter.PollTwitter`. Success is
  promised from the Objects before the poll only. Reply rows are stated per
  item by `Twitter.RecordItem`.
- TypePad.PollTypepad: the same shape. Success is promised when the asset
  normalises against the Objects from before the poll and the verb is mapped.
  Reply rows are stated per item by `TypePad.ProjectNote`.
- TypePad.ProjectNotes: the same as `TypePad.PollTypepad`. Success is
  promised from the Objects before the poll only. Reply rows are stated per
  item by `TypePad.ProjectNote`.
- Flickr.PollFlickr: success is promised when every listed photo is stored,
  or its owner's Account can be given, before the loop. A photo can also
  become ready through an Account an earlier photo created. Row contents are
  stated per photo by `Flickr.ProjectPhoto`.
- Flickr.PollContactsPhotos: the same as `Flickr.PollFlickr`. Success is
  promised from the tables before the loop only, and each photo's row
  contents are stated per photo by `Flickr.ProjectPhoto`.
- Flickr.ProjectPhotos: the same. Success is promised from the tables before
  the loop only. On a failure the rows of the earlier photos are stated by
  key, not by contents.
- Mlkshk.PollMlkshk: states the stream keys of the posts and the Objects of
  the latest post of each key, not the rows' contents;
  `Mlkshk.ProjectPost` states those per post.
- Mlkshk.ProjectPosts: states the stream keys and the refreshed Object
  fields, not the rows' author and time. A row keeps the author and time of
  the Object when the row was first made, and a later post with the same
  key may rewrite that Object. Media of a post whose key was already stored
  are stated per post by `Mlkshk.ProjectPost`.
- Mlkshk.PollFriendShake: the same as `Mlkshk.ProjectPosts`.
- LjImport.ImportFriends: states that every friend has a Person on success,
  not each friend's memberships; `LjImport.ImportFriend` states those per
  friend.
- LjImport.ImportPosts: states that every post is stored on success, not
  each post's contents; `LjImport.ImportEvent` states those per post.
- LjImport.ImportEvents: states the owner's and friends' Persons and the
  posts' presence, not the Group table's contents; `LjImport.ImportGroups`
  states those.
- Twitter.RawObjectForTweet: for a reply whose parent had to be fetched, the
  contract says the new Object has a parent but does not name it. The parent
  is whatever the nested normalisation returned, possibly a shared Object.

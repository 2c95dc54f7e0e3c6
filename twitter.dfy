/**
 * The Twitter poller: home-timeline tweets become `status` Objects whose
 * body is the tweet text with its entities turned into links, replies are
 * attached to their parents (fetched up the chain when not stored yet),
 * a tweet that is only a link and the linked page's title collapses into a
 * share of that page, and every item is projected into the user's stream.
 */
module Twitter {
  import opened Text
  import opened Entities
  import opened Thread
  import opened Storage

  const Service: string := "twitter.com"

  datatype TwitterUser = TwitterUser(
    id: nat,
    name: string,
    screenName: string,
    profileImageUrl: string,
    backgroundColor: string,
    backgroundImageUrl: string,
    backgroundTile: bool)

  /** An entity's `indices` pair: the half-open character range it covers. */
  datatype Span = Span(start: int, end: int)

  /** `expanded_url` is null or empty for links Twitter did not shorten. */
  datatype UrlEntity = UrlEntity(url: string, expandedUrl: Option<string>, span: Span)
  datatype MentionEntity = MentionEntity(screenName: string, name: string, span: Span)
  datatype HashtagEntity = HashtagEntity(text: string, span: Span)

  /** The `entities` dict; a list that is absent is `None`. */
  datatype EntitySet = EntitySet(
    urls: Option<seq<UrlEntity>>,
    mentions: Option<seq<MentionEntity>>,
    hashtags: Option<seq<HashtagEntity>>)

  /** What the three entity patterns find in a tweet's text, in text order. */
  datatype TextMatch = TextMatch(text: string, span: Span)
  datatype Scan = Scan(urls: seq<TextMatch>, mentions: seq<TextMatch>, hashtags: seq<TextMatch>)

  /**
   * The answer to `statuses/show/<id>.json` for a parent that is not stored:
   * the parsed payload and what scanning its text finds, or a non-200 status.
   */
  datatype Fetch = Fetched(payload: Tweet, scan: Scan) | HttpError(status: nat)

  /** `in_reply_to_status_id`, with the answer fetching it would give. */
  datatype ReplyRef = ReplyRef(statusId: nat, fetch: Fetch)

  datatype Tweet = Tweet(
    id: nat,
    text: string,
    user: TwitterUser,
    createdAt: Time,
    replyTo: Option<ReplyRef>,
    entities: Option<EntitySet>,
    retweeted: Option<Tweet>)

  function UserKey(u: TwitterUser): AccountKey
  {
    AccountKey(Service, NatToString(u.id))
  }

  function TweetKey(t: Tweet): ObjKey
  {
    ObjKey(Service, NatToString(t.id))
  }

  function ParentKey(r: ReplyRef): ObjKey
  {
    ObjKey(Service, NatToString(r.statusId))
  }

  /** `tweetdata.get('in_reply_to_status_id')` is truthy: present and not 0. */
  predicate IsReply(t: Tweet)
  {
    t.replyTo.Some? && t.replyTo.value.statusId != 0
  }

  function Permalink(t: Tweet): string
  {
    "http://twitter.com/" + t.user.screenName + "/status/" + NatToString(t.id)
  }

  /** How many parent payloads are nested below a tweet. */
  function Depth(t: Tweet): nat
  {
    match t.replyTo
    case None => 0
    case Some(r) =>
      match r.fetch
      case HttpError(_) => 0
      case Fetched(p, _) => 1 + Depth(p)
  }

  // ---------------------------------------------------------------------
  // synthesize_entities

  /**
   * `synthesize_entities`: a tweet that already has entities is left as it
   * is; otherwise it gains all three lists, built from the scan with no
   * expanded url and the screen name standing in for the mention's name.
   */
  function SynthesizeEntities(t: Tweet, scan: Scan): (r: Tweet)
    ensures r.entities.Some?
    ensures t.entities.Some? ==> r == t
    ensures t.entities.None? ==>
              && r == t.(entities := r.entities)
              && r.entities.value.urls.Some? && r.entities.value.mentions.Some? && r.entities.value.hashtags.Some?
              && |r.entities.value.urls.value| == |scan.urls|
              && (forall i | 0 <= i < |scan.urls| ::
                    r.entities.value.urls.value[i] == UrlEntity(scan.urls[i].text, None, scan.urls[i].span))
              && |r.entities.value.mentions.value| == |scan.mentions|
              && (forall i | 0 <= i < |scan.mentions| ::
                    var m := r.entities.value.mentions.value[i];
                    m.screenName == m.name == scan.mentions[i].text && m.span == scan.mentions[i].span)
              && |r.entities.value.hashtags.value| == |scan.hashtags|
              && (forall i | 0 <= i < |scan.hashtags| ::
                    r.entities.value.hashtags.value[i] == HashtagEntity(scan.hashtags[i].text, scan.hashtags[i].span))
  {
    if t.entities.Some? then t
    else
      var urls := seq(|scan.urls|, i requires 0 <= i < |scan.urls| =>
        UrlEntity(scan.urls[i].text, None, scan.urls[i].span));
      var mentions := seq(|scan.mentions|, i requires 0 <= i < |scan.mentions| =>
        MentionEntity(scan.mentions[i].text, scan.mentions[i].text, scan.mentions[i].span));
      var tags := seq(|scan.hashtags|, i requires 0 <= i < |scan.hashtags| =>
        HashtagEntity(scan.hashtags[i].text, scan.hashtags[i].span));
      t.(entities := Some(EntitySet(Some(urls), Some(mentions), Some(tags))))
  }

  // ---------------------------------------------------------------------
  // tweet_html

  /** One replacement: the characters in [start, end) give way to `html`. */
  datatype Mutation = Mutation(start: int, end: int, html: string)

  /** A link's target: its expanded url when that is present and non-empty, else its short url. */
  function LinkTarget(u: UrlEntity): (r: string)
    ensures u.expandedUrl.Some? && u.expandedUrl.value != [] ==> r == u.expandedUrl.value
    ensures u.expandedUrl.None? || u.expandedUrl.value == [] ==> r == u.url
  {
    if u.expandedUrl.Some? && u.expandedUrl.value != [] then u.expandedUrl.value else u.url
  }

  function UrlMutation(u: UrlEntity): Mutation
  {
    var target := LinkTarget(u);
    Mutation(u.span.start, u.span.end, "<a href=\"" + target + "\">" + target + "</a>")
  }

  function MentionMutation(m: MentionEntity): Mutation
  {
    Mutation(m.span.start, m.span.end,
      "@<a href=\"http://twitter.com/" + m.screenName + "\" title=\"" + m.name + "\">" + m.screenName + "</a>")
  }

  function HashtagMutation(h: HashtagEntity): Mutation
  {
    Mutation(h.span.start, h.span.end,
      "<a href=\"http://twitter.com/search?q=%23" + h.text + "\">#" + h.text + "</a>")
  }

  /** An entity list, or the empty list when the tweet has none. */
  function OrEmpty<T>(xs: Option<seq<T>>): seq<T>
  {
    if xs.Some? then xs.value else []
  }

  function UrlMutations(us: seq<UrlEntity>): (ms: seq<Mutation>)
    ensures |ms| == |us|
    ensures forall i {:trigger UrlMutation(us[i])} | 0 <= i < |us| :: ms[i] == UrlMutation(us[i])
  {
    if us == [] then [] else UrlMutations(us[..|us| - 1]) + [UrlMutation(us[|us| - 1])]
  }

  function MentionMutations(ns: seq<MentionEntity>): (ms: seq<Mutation>)
    ensures |ms| == |ns|
    ensures forall i {:trigger MentionMutation(ns[i])} | 0 <= i < |ns| :: ms[i] == MentionMutation(ns[i])
  {
    if ns == [] then [] else MentionMutations(ns[..|ns| - 1]) + [MentionMutation(ns[|ns| - 1])]
  }

  function HashtagMutations(hs: seq<HashtagEntity>): (ms: seq<Mutation>)
    ensures |ms| == |hs|
    ensures forall i {:trigger HashtagMutation(hs[i])} | 0 <= i < |hs| :: ms[i] == HashtagMutation(hs[i])
  {
    if hs == [] then [] else HashtagMutations(hs[..|hs| - 1]) + [HashtagMutation(hs[|hs| - 1])]
  }

  /** The mutations list in the order it is built: links, then mentions, then hashtags. */
  function MutationsOf(e: EntitySet): seq<Mutation>
  {
    UrlMutations(OrEmpty(e.urls)) + MentionMutations(OrEmpty(e.mentions)) + HashtagMutations(OrEmpty(e.hashtags))
  }

  predicate Descending(ms: seq<Mutation>)
  {
    forall i, j | 0 <= i < j < |ms| :: ms[i].start >= ms[j].start
  }

  /**
   * Places `m` after every element whose start is at least its own, so
   * that among equal starts the earlier-inserted element stays first.
   */
  function InsertDesc(m: Mutation, ds: seq<Mutation>): (r: seq<Mutation>)
    ensures multiset(r) == multiset(ds) + multiset{m}
  {
    if ds == [] then [m]
    else if ds[0].start >= m.start then
      assert ds == [ds[0]] + ds[1..];
      [ds[0]] + InsertDesc(m, ds[1..])
    else [m] + ds
  }

  lemma {:induction false} InsertDescending(m: Mutation, ds: seq<Mutation>)
    requires Descending(ds)
    ensures Descending(InsertDesc(m, ds))
  {
    if ds != [] && ds[0].start >= m.start {
      var rest := InsertDesc(m, ds[1..]);
      InsertDescending(m, ds[1..]);
      InsertDescBounded(m, ds[1..], ds[0].start);
      var r := [ds[0]] + rest;
      forall i, j | 0 <= i < j < |r| ensures r[i].start >= r[j].start
      {
        if i > 0 {
          assert r[i] == rest[i - 1] && r[j] == rest[j - 1];
        } else {
          assert r[j] == rest[j - 1];
        }
      }
    }
  }

  /** Inserting under a bound every element already respects keeps every start under it. */
  lemma {:induction false} InsertDescBounded(m: Mutation, ds: seq<Mutation>, b: int)
    requires m.start <= b && forall i | 0 <= i < |ds| :: ds[i].start <= b
    ensures forall i | 0 <= i < |InsertDesc(m, ds)| :: InsertDesc(m, ds)[i].start <= b
  {
    if ds != [] && ds[0].start >= m.start {
      InsertDescBounded(m, ds[1..], b);
      var rest := InsertDesc(m, ds[1..]);
      assert InsertDesc(m, ds) == [ds[0]] + rest;
    }
  }

  /** `sorted(ms, key=start, reverse=True)`, which keeps equal starts in their original order. */
  function SortDesc(ms: seq<Mutation>): (r: seq<Mutation>)
    ensures multiset(r) == multiset(ms)
  {
    if ms == [] then []
    else
      var init := ms[..|ms| - 1];
      assert ms == init + [ms[|ms| - 1]];
      InsertDesc(ms[|ms| - 1], SortDesc(init))
  }

  /** The sort orders by start, largest first, and loses or adds nothing. */
  lemma {:induction false} SortDescSorted(ms: seq<Mutation>)
    ensures Descending(SortDesc(ms))
    ensures multiset(SortDesc(ms)) == multiset(ms)
  {
    if ms != [] {
      SortDescSorted(ms[..|ms| - 1]);
      InsertDescending(ms[|ms| - 1], SortDesc(ms[..|ms| - 1]));
    }
  }

  /** `tweet[:start] + html + tweet[end:]`, with Python's clamped slices. */
  function Splice(t: string, m: Mutation): string
  {
    PrefixTo(t, m.start) + m.html + SuffixFrom(t, m.end)
  }

  /** Applying the mutations one after another, in list order. */
  function ApplyAll(t: string, ms: seq<Mutation>): string
    decreases |ms|
  {
    if ms == [] then t else ApplyAll(Splice(t, ms[0]), ms[1..])
  }

  /** What `tweet_html` returns for a tweet. */
  function TweetBody(t: Tweet): string
  {
    if t.entities.None? then t.text else ApplyAll(t.text, SortDesc(MutationsOf(t.entities.value)))
  }

  /**
   * Mutations in application order that each cover a range of the text
   * and each lie wholly to the left of the ones before them.
   */
  predicate WellPlaced(t: string, ds: seq<Mutation>)
  {
    && (forall i | 0 <= i < |ds| :: 0 <= ds[i].start <= ds[i].end <= |t|)
    && (forall i, j | 0 <= i < j < |ds| :: ds[j].end <= ds[i].start)
  }

  /**
   * The original text with every span replaced by its html: the rendering
   * of the text left of the rightmost span, then its html, then the
   * original text after it.
   */
  function Rendered(t: string, ds: seq<Mutation>): string
    requires WellPlaced(t, ds)
    decreases |ds|
  {
    if ds == [] then t
    else Rendered(t[..ds[0].start], ds[1..]) + ds[0].html + t[ds[0].end..]
  }

  /** A mutation inside a prefix leaves whatever follows the prefix alone. */
  lemma SpliceAppend(p: string, rest: string, m: Mutation)
    requires 0 <= m.start <= m.end <= |p|
    ensures Splice(p + rest, m) == Splice(p, m) + rest
  {
    assert (p + rest)[..m.start] == p[..m.start];
    assert (p + rest)[m.end..] == p[m.end..] + rest;
  }

  lemma {:induction false} ApplyAppend(p: string, rest: string, ds: seq<Mutation>)
    requires WellPlaced(p, ds)
    ensures ApplyAll(p + rest, ds) == ApplyAll(p, ds) + rest
    decreases |ds|
  {
    if ds != [] {
      SpliceAppend(p, rest, ds[0]);
      var p' := Splice(p, ds[0]);
      assert |p'| >= ds[0].start;
      assert WellPlaced(p', ds[1..]) by {
        forall i | 0 <= i < |ds[1..]| ensures 0 <= ds[1..][i].start <= ds[1..][i].end <= |p'|
        {
          assert ds[1..][i] == ds[i + 1];
        }
      }
      ApplyAppend(p', rest, ds[1..]);
    }
  }

  /**
   * Applying well-placed mutations from the rightmost one leftwards
   * replaces each original span by its html and keeps every other
   * character of the original text.
   */
  lemma {:induction false} ApplyRendered(t: string, ds: seq<Mutation>)
    requires WellPlaced(t, ds)
    ensures ApplyAll(t, ds) == Rendered(t, ds)
    decreases |ds|
  {
    if ds != [] {
      var p := t[..ds[0].start];
      var rest := ds[0].html + t[ds[0].end..];
      assert Splice(t, ds[0]) == p + rest;
      assert WellPlaced(p, ds[1..]) by {
        forall i | 0 <= i < |ds[1..]| ensures 0 <= ds[1..][i].start <= ds[1..][i].end <= |p|
        {
          assert ds[1..][i] == ds[i + 1];
        }
      }
      ApplyAppend(p, rest, ds[1..]);
      ApplyRendered(p, ds[1..]);
    }
  }

  /** Spans inside the text, none empty, no two overlapping. */
  predicate Disjoint(t: string, ms: seq<Mutation>)
  {
    && (forall i | 0 <= i < |ms| :: 0 <= ms[i].start < ms[i].end <= |t|)
    && (forall i, j | 0 <= i < j < |ms| :: ms[i].end <= ms[j].start || ms[j].end <= ms[i].start)
  }

  lemma {:induction false} InsertWellPlaced(t: string, m: Mutation, ds: seq<Mutation>)
    requires WellPlaced(t, ds) && forall x | x in ds :: x.start < x.end
    requires 0 <= m.start < m.end <= |t|
    requires forall x | x in ds :: x.end <= m.start || m.end <= x.start
    ensures WellPlaced(t, InsertDesc(m, ds))
    decreases |ds|
  {
    if ds != [] && ds[0].start >= m.start {
      var rest := InsertDesc(m, ds[1..]);
      InsertWellPlaced(t, m, ds[1..]);
      forall y | y in rest ensures y.end <= ds[0].start
      {
        assert y in multiset(rest);
        if y != m {
          var k :| 0 <= k < |ds[1..]| && ds[1..][k] == y;
          assert ds[k + 1] == y;
        }
      }
      ConsWellPlaced(t, ds[0], rest);
    } else if ds != [] {
      forall x | x in ds ensures x.end <= m.start
      {
        var k :| 0 <= k < |ds| && ds[k] == x;
        if k > 0 {
          assert ds[k].end <= ds[0].start;
        }
      }
      ConsWellPlaced(t, m, ds);
    }
  }

  lemma ConsWellPlaced(t: string, h: Mutation, rest: seq<Mutation>)
    requires WellPlaced(t, rest) && 0 <= h.start <= h.end <= |t|
    requires forall y | y in rest :: y.end <= h.start
    ensures WellPlaced(t, [h] + rest)
  {
    var r := [h] + rest;
    forall i, j | 0 <= i < j < |r| ensures r[j].end <= r[i].start
    {
      if i > 0 {
        assert r[i] == rest[i - 1] && r[j] == rest[j - 1];
      } else {
        assert r[j] in rest;
      }
    }
  }

  /**
   * Entity spans that lie inside the text and do not overlap come out of
   * the descending sort well placed, so the result of `tweet_html` is the
   * text with each span replaced.
   */
  lemma {:induction false} SortedWellPlaced(t: string, ms: seq<Mutation>)
    requires Disjoint(t, ms)
    ensures WellPlaced(t, SortDesc(ms))
    ensures forall x | x in SortDesc(ms) :: x.start < x.end
  {
    if ms != [] {
      var init := ms[..|ms| - 1];
      var m := ms[|ms| - 1];
      SortedWellPlaced(t, init);
      var sorted := SortDesc(init);
      forall x | x in sorted ensures x.end <= m.start || m.end <= x.start
      {
        assert x in multiset(init);
        var k :| 0 <= k < |init| && init[k] == x;
        assert ms[k] == x;
      }
      InsertWellPlaced(t, m, sorted);
      forall x | x in SortDesc(ms) ensures x.start < x.end
      {
        assert x in multiset(SortDesc(ms));
      }
    }
  }

  /** The link html of `tweet_html` for spans that do not overlap. */
  lemma TweetBodyRendered(t: Tweet)
    requires t.entities.Some? && Disjoint(t.text, MutationsOf(t.entities.value))
    ensures WellPlaced(t.text, SortDesc(MutationsOf(t.entities.value)))
    ensures TweetBody(t) == Rendered(t.text, SortDesc(MutationsOf(t.entities.value)))
  {
    SortedWellPlaced(t.text, MutationsOf(t.entities.value));
    ApplyRendered(t.text, SortDesc(MutationsOf(t.entities.value)));
  }

  /**
   * `tweet_html`: builds the mutations list entity kind by entity kind, then
   * splices the mutations into the text from the largest start down.
   */
  method TweetHtml(t: Tweet) returns (html: string)
    ensures html == TweetBody(t)
    ensures t.entities.None? ==> html == t.text
  {
    html := t.text;
    if t.entities.None? {
      return;
    }
    var mutations := CollectMutations(t.entities.value);
    var sorted := SortDesc(mutations);
    for i := 0 to |sorted|
      invariant ApplyAll(html, sorted[i..]) == ApplyAll(t.text, sorted)
    {
      assert sorted[i..][1..] == sorted[i + 1..];
      html := Splice(html, sorted[i]);
    }
  }

  lemma UrlMutationsStep(us: seq<UrlEntity>, i: nat)
    requires i < |us|
    ensures UrlMutations(us[..i + 1]) == UrlMutations(us[..i]) + [UrlMutation(us[i])]
  {
    assert us[..i + 1][..i] == us[..i];
  }

  lemma MentionMutationsStep(ns: seq<MentionEntity>, i: nat)
    requires i < |ns|
    ensures MentionMutations(ns[..i + 1]) == MentionMutations(ns[..i]) + [MentionMutation(ns[i])]
  {
    assert ns[..i + 1][..i] == ns[..i];
  }

  lemma HashtagMutationsStep(hs: seq<HashtagEntity>, i: nat)
    requires i < |hs|
    ensures HashtagMutations(hs[..i + 1]) == HashtagMutations(hs[..i]) + [HashtagMutation(hs[i])]
  {
    assert hs[..i + 1][..i] == hs[..i];
  }

  /** The three loops of `tweet_html` that fill the mutations list. */
  method CollectMutations(e: EntitySet) returns (mutations: seq<Mutation>)
    ensures mutations == MutationsOf(e)
  {
    mutations := AppendUrlMutations([], OrEmpty(e.urls));
    mutations := AppendMentionMutations(mutations, OrEmpty(e.mentions));
    mutations := AppendHashtagMutations(mutations, OrEmpty(e.hashtags));
  }

  /** The loop over the url entities, appending one mutation per url. */
  method AppendUrlMutations(acc: seq<Mutation>, us: seq<UrlEntity>) returns (ms: seq<Mutation>)
    ensures ms == acc + UrlMutations(us)
  {
    ms := acc;
    for i := 0 to |us|
      invariant ms == acc + UrlMutations(us[..i])
    {
      UrlMutationsStep(us, i);
      ms := ms + [UrlMutation(us[i])];
    }
    assert us[..|us|] == us;
  }

  /** The loop over the mentions, appending one mutation per mention. */
  method AppendMentionMutations(acc: seq<Mutation>, ns: seq<MentionEntity>) returns (ms: seq<Mutation>)
    ensures ms == acc + MentionMutations(ns)
  {
    ms := acc;
    for i := 0 to |ns|
      invariant ms == acc + MentionMutations(ns[..i])
    {
      MentionMutationsStep(ns, i);
      ms := ms + [MentionMutation(ns[i])];
    }
    assert ns[..|ns|] == ns;
  }

  /** The loop over the hashtags, appending one mutation per hashtag. */
  method AppendHashtagMutations(acc: seq<Mutation>, hs: seq<HashtagEntity>) returns (ms: seq<Mutation>)
    ensures ms == acc + HashtagMutations(hs)
  {
    ms := acc;
    for i := 0 to |hs|
      invariant ms == acc + HashtagMutations(hs[..i])
    {
      HashtagMutationsStep(hs, i);
      ms := ms + [HashtagMutation(hs[i])];
    }
    assert hs[..|hs|] == hs;
  }

  // ---------------------------------------------------------------------
  // The share collapse in raw_object_for_tweet

  /**
   * The tweet text with the link cut out, lowercased, every occurrence of
   * the lowercased title of the linked Object removed when it has a
   * non-empty title, and all whitespace removed.
   */
  function Collapsed(text: string, link: Span, title: Option<string>): string
  {
    var cut := Lower(PrefixTo(text, link.start) + SuffixFrom(text, link.end));
    var untitled := if title.Some? && title.value != [] then ReplaceAll(cut, Lower(title.value), "") else cut;
    StripSpaces(untitled)
  }

  /**
   * A tweet made of the linked page's title, in any letter case, some
   * whitespace and the link is a share.
   */
  lemma CollapseTitleAndLink(shown: string, title: string, gap: string, url: string)
    requires title != [] && Lower(shown) == Lower(title)
    requires forall i | 0 <= i < |gap| :: IsSpace(gap[i])
    ensures Collapsed(shown + gap + url, Span(|shown| + |gap|, |shown| + |gap| + |url|), Some(title)) == []
  {
    var text := shown + gap + url;
    var cut := PrefixTo(text, |shown| + |gap|) + SuffixFrom(text, |shown| + |gap| + |url|);
    assert cut == shown + gap by {
      assert PrefixTo(text, |shown| + |gap|) == shown + gap;
      assert SuffixFrom(text, |shown| + |gap| + |url|) == [];
    }
    LowerConcat(shown, gap);
    ReplaceLeading(Lower(title), Lower(gap), "");
    var left := ReplaceAll(Lower(gap), Lower(title), "");
    assert ReplaceAll(Lower(cut), Lower(title), "") == left;
    forall c | c in left ensures IsSpace(c)
    {
      assert c in Lower(gap);
      var k :| 0 <= k < |gap| && Lower(gap)[k] == c;
    }
    StripSpacesEmpty(left);
  }

  /** Whitespace before a pattern that does not start with whitespace is kept, and the pattern removed. */
  lemma {:induction false} ReplaceAfterSpaces(gap: string, pat: string)
    requires pat != [] && !IsSpace(pat[0])
    requires forall i | 0 <= i < |gap| :: IsSpace(gap[i])
    ensures ReplaceAll(gap + pat, pat, "") == gap
  {
    if gap == [] {
      assert gap + pat == pat + [];
      ReplaceLeading(pat, [], "");
    } else {
      var s := gap + pat;
      assert s[..|pat|][0] == gap[0];
      assert s[1..] == gap[1..] + pat;
      ReplaceAfterSpaces(gap[1..], pat);
    }
  }

  /**
   * The link first, then whitespace and the page's title, in any letter
   * case, is a share too, when the title does not start with whitespace.
   */
  lemma CollapseLinkThenTitle(url: string, gap: string, shown: string, title: string)
    requires title != [] && !IsSpace(title[0]) && Lower(shown) == Lower(title)
    requires forall i | 0 <= i < |gap| :: IsSpace(gap[i])
    ensures Collapsed(url + gap + shown, Span(0, |url|), Some(title)) == []
  {
    var text := url + gap + shown;
    var cut := PrefixTo(text, 0) + SuffixFrom(text, |url|);
    assert cut == gap + shown by {
      assert PrefixTo(text, 0) == [];
      assert SuffixFrom(text, |url|) == gap + shown;
    }
    var lg := Lower(gap);
    assert Lower(cut) == lg + Lower(title) by {
      LowerConcat(gap, shown);
    }
    assert Lower(title)[0] == LowerChar(title[0]);
    ReplaceAfterSpaces(lg, Lower(title));
    assert ReplaceAll(Lower(cut), Lower(title), "") == lg;
    StripSpacesEmpty(lg);
  }

  /**
   * When the linked Object has no title, any non-whitespace character
   * outside the link keeps the tweet a status of its own.
   */
  lemma CollapseKeepsCommentary(text: string, link: Span, title: Option<string>, i: int)
    requires title.None? || title.value == []
    requires 0 <= link.start <= link.end <= |text|
    requires (0 <= i < link.start || link.end <= i < |text|) && !IsSpace(text[i])
    ensures Collapsed(text, link, title) != []
  {
    var cut := text[..link.start] + text[link.end..];
    var j := if i < link.start then i else i - (link.end - link.start);
    assert cut[j] == text[i];
    assert !IsSpace(Lower(cut)[j]);
    StripSpacesEmpty(Lower(cut));
  }

  // ---------------------------------------------------------------------
  // account_for_twitter_user

  function TwitterBackground(u: TwitterUser): Background
  {
    Background(u.backgroundColor, u.backgroundImageUrl, u.backgroundTile)
  }

  /**
   * `account_for_twitter_user`: the Account keyed ('twitter.com', str(id))
   * is returned as it is when stored; otherwise one Account is created,
   * preceded by a 48x48 avatar and a Person when no Person is given.
   */
  method AccountForTwitterUser(store: Store, u: TwitterUser, person: Option<PersonId>) returns (key: AccountKey)
    requires store.Valid()
    requires person.Some? ==> person.value < |store.persons|
    modifies store
    ensures store.Valid() && store.rank == old(store.rank)
    ensures RowsKept(old(store.Snapshot()), store.Snapshot())
    ensures store.objects == old(store.objects) && store.stream == old(store.stream) && store.replies == old(store.replies)
    ensures key == UserKey(u) && key in store.accounts
    ensures key in old(store.accounts) ==> store.Snapshot() == old(store.Snapshot())
    ensures key !in old(store.accounts) && person.Some? ==>
              store.Snapshot() == old(store.Snapshot()).(
                accounts := old(store.accounts)[key := Account(u.name, person.value, Some(TwitterBackground(u)))])
    ensures key !in old(store.accounts) && person.None? ==>
              store.Snapshot() == old(store.Snapshot()).(
                media := old(store.media) + [Media(u.profileImageUrl, 48, 48)],
                persons := old(store.persons) + [Person(u.name, "http://twitter.com/" + u.screenName, Some(|old(store.media)|), None)],
                accounts := old(store.accounts)[key := Account(u.name, |old(store.persons)|, Some(TwitterBackground(u)))])
  {
    key := UserKey(u);
    if key in store.accounts {
      return;
    }
    var owner: PersonId;
    if person.None? {
      var avatar := store.AddMedia(Media(u.profileImageUrl, 48, 48));
      ghost var withAvatar := store.Snapshot();
      owner := store.AddPerson(Person(u.name, "http://twitter.com/" + u.screenName, Some(avatar), None));
      RowsKeptTransitive(old(store.Snapshot()), withAvatar, store.Snapshot());
    } else {
      owner := person.value;
    }
    ghost var withPerson := store.Snapshot();
    store.AddAccount(key, Account(u.name, owner, Some(TwitterBackground(u))));
    RowsKeptTransitive(old(store.Snapshot()), withPerson, store.Snapshot());
  }

  // ---------------------------------------------------------------------
  // raw_object_for_tweet

  /** Every link the resolver knows leads to a stored Object. */
  ghost predicate Resolvable(store: Store, resolve: map<string, ObjKey>)
    reads store
  {
    forall u | u in resolve :: resolve[u] in store.objects
  }

  /** The single link of a tweet that is not a reply, when it has exactly one. */
  function SoleLink(t: Tweet): Option<UrlEntity>
  {
    if !IsReply(t) && t.entities.Some? && t.entities.value.urls.Some? && |t.entities.value.urls.value| == 1
    then Some(t.entities.value.urls.value[0]) else None
  }

  /**
   * The tweet is a link to a known Object whose text, once the link, the
   * Object's title and all whitespace are gone, is empty.
   */
  ghost predicate IsShare(objects: map<ObjKey, Obj>, t: Tweet, resolve: map<string, ObjKey>)
  {
    && SoleLink(t).Some?
    && LinkTarget(SoleLink(t).value) in resolve
    && resolve[LinkTarget(SoleLink(t).value)] in objects
    && Collapsed(t.text, SoleLink(t).value.span, objects[resolve[LinkTarget(SoleLink(t).value)]].title) == []
  }

  /** The fetched parent of a reply, with its entities synthesised. */
  function FetchedParent(t: Tweet): (next: Tweet)
    requires IsReply(t) && t.replyTo.value.fetch.Fetched?
    ensures Depth(next) < Depth(t)
  {
    var next := SynthesizeEntities(t.replyTo.value.fetch.payload, t.replyTo.value.fetch.scan);
    assert next.replyTo == t.replyTo.value.fetch.payload.replyTo;
    next
  }

  /**
   * The keys of the tweet Objects `raw_object_for_tweet` saves when it
   * succeeds: none for a stored tweet or a share; otherwise the tweet's own,
   * and for a reply whose parent is not stored, those of the fetched parent.
   */
  ghost function NewTweetKeys(objects: map<ObjKey, Obj>, t: Tweet, resolve: map<string, ObjKey>): set<ObjKey>
    decreases Depth(t)
  {
    if TweetKey(t) in objects then {}
    else if IsReply(t) then
      if ParentKey(t.replyTo.value) in objects || t.replyTo.value.fetch.HttpError? then {TweetKey(t)}
      else {TweetKey(t)} + NewTweetKeys(objects, FetchedParent(t), resolve)
    else if IsShare(objects, t, resolve) then {}
    else {TweetKey(t)}
  }

  /**
   * When `raw_object_for_tweet` succeeds on `t`: the tweet is stored; or it is
   * a reply whose parent is stored, or whose parent fetch answered and
   * normalises without saving the tweet's own key on the way; or it is not a
   * reply and carries `entities['urls']`.
   */
  ghost predicate Normalises(objects: map<ObjKey, Obj>, t: Tweet, resolve: map<string, ObjKey>)
    decreases Depth(t)
  {
    if TweetKey(t) in objects then true
    else if IsReply(t) then
      || ParentKey(t.replyTo.value) in objects
      || (&& t.replyTo.value.fetch.Fetched?
          && Normalises(objects, FetchedParent(t), resolve)
          && TweetKey(t) !in NewTweetKeys(objects, FetchedParent(t), resolve))
    else t.entities.Some? && t.entities.value.urls.Some?
  }

  /** Storing more Objects only shrinks what normalising a tweet saves. */
  lemma {:induction false} NewTweetKeysShrink(a: map<ObjKey, Obj>, b: map<ObjKey, Obj>, t: Tweet, resolve: map<string, ObjKey>)
    requires ObjectsKept(a, b)
    ensures NewTweetKeys(b, t, resolve) <= NewTweetKeys(a, t, resolve)
    decreases Depth(t)
  {
    if TweetKey(t) !in b && IsReply(t) && ParentKey(t.replyTo.value) !in b && t.replyTo.value.fetch.Fetched? {
      NewTweetKeysShrink(a, b, FetchedParent(t), resolve);
    } else if TweetKey(t) !in b && !IsReply(t) && IsShare(a, t, resolve) {
      assert IsShare(b, t, resolve);
    }
  }

  /** A tweet that normalises keeps normalising once more Objects are stored. */
  lemma {:induction false} NormalisesKept(a: map<ObjKey, Obj>, b: map<ObjKey, Obj>, t: Tweet, resolve: map<string, ObjKey>)
    requires ObjectsKept(a, b) && Normalises(a, t, resolve)
    ensures Normalises(b, t, resolve)
    decreases Depth(t)
  {
    if TweetKey(t) !in b && IsReply(t) && ParentKey(t.replyTo.value) !in b {
      var next := FetchedParent(t);
      NormalisesKept(a, b, next, resolve);
      NewTweetKeysShrink(a, b, next, resolve);
    }
  }

  /**
   * `raw_object_for_tweet`: the Object for a tweet and whether it stands for
   * a share.  A stored tweet is returned as it is.  A reply gets its stored
   * parent, or the parent fetched up the chain and normalised first.  A
   * tweet with one link to a known Object gets that Object as parent, or
   * is replaced by it when it collapses to a share.  The new tweet Object is
   * saved once, after its author's Account.
   */
  method RawObjectForTweet(store: Store, t: Tweet, resolve: map<string, ObjKey>)
    returns (res: Result<(bool, ObjKey)>)
    requires store.Valid() && Resolvable(store, resolve)
    modifies store
    ensures store.Valid() && Resolvable(store, resolve)
    ensures RowsKept(old(store.Snapshot()), store.Snapshot())
    ensures store.stream == old(store.stream) && store.replies == old(store.replies)
    ensures res.Ok? ==> res.value.1 in store.objects
    ensures TweetKey(t) in old(store.objects) ==>
              res == Ok((false, TweetKey(t))) && store.Snapshot() == old(store.Snapshot())
    ensures TweetKey(t) !in old(store.objects) && IsShare(old(store.objects), t, resolve) ==>
              res == Ok((true, resolve[LinkTarget(SoleLink(t).value)])) && store.Snapshot() == old(store.Snapshot())
    ensures res.Ok? && !res.value.0 ==> res.value.1 == TweetKey(t)
    ensures res.Ok? && res.value.0 ==> IsShare(old(store.objects), t, resolve)
    ensures res.Ok? && !res.value.0 && TweetKey(t) !in old(store.objects) ==>
              && TweetKey(t) in store.objects
              && store.objects[TweetKey(t)] == NewTweetObj(t, store.objects[TweetKey(t)].inReplyTo)
    ensures res.Ok? && !res.value.0 && TweetKey(t) !in old(store.objects) && IsReply(t) ==>
              && store.objects[TweetKey(t)].inReplyTo.Some?
              && (ParentKey(t.replyTo.value) in old(store.objects) ==>
                    store.objects[TweetKey(t)].inReplyTo == Some(ParentKey(t.replyTo.value)))
    ensures res.Ok? && !res.value.0 && TweetKey(t) !in old(store.objects) && !IsReply(t) ==>
              store.objects[TweetKey(t)].inReplyTo ==
                (if SoleLink(t).Some? && LinkTarget(SoleLink(t).value) in resolve
                 then Some(resolve[LinkTarget(SoleLink(t).value)]) else None)
    ensures !IsReply(t) && TweetKey(t) !in old(store.objects) && t.entities.None? ==>
              res == Err(MissingKey("entities"))
    ensures res.Ok? <==> Normalises(old(store.objects), t, resolve)
    ensures res.Ok? ==> store.objects.Keys == old(store.objects).Keys + NewTweetKeys(old(store.objects), t, resolve)
    decreases Depth(t), 2
  {
    RowsKeptReflexive(store.Snapshot());
    ghost var objects0 := store.objects;
    var key := TweetKey(t);
    if key in store.objects {
      assert Normalises(objects0, t, resolve) && NewTweetKeys(objects0, t, resolve) == {};
      return Ok((false, key));
    }
    if IsReply(t) {
      res := SaveReply(store, t, resolve);
    } else {
      res := SaveLinked(store, t, resolve);
    }
  }

  /**
   * How the parent lookup (`objects0` to `objects1`) and the save of the
   * reply (`objects1` to `objects2`) decide whether a new reply normalises,
   * and what it saves.
   */
  lemma ReplyOutcome(objects0: map<ObjKey, Obj>, objects1: map<ObjKey, Obj>, objects2: map<ObjKey, Obj>,
                     t: Tweet, resolve: map<string, ObjKey>, parentOk: bool, saved: bool)
    requires IsReply(t) && TweetKey(t) !in objects0
    requires parentOk <==>
               || ParentKey(t.replyTo.value) in objects0
               || (t.replyTo.value.fetch.Fetched? && Normalises(objects0, FetchedParent(t), resolve))
    requires parentOk && ParentKey(t.replyTo.value) in objects0 ==> objects1 == objects0
    requires parentOk && ParentKey(t.replyTo.value) !in objects0 ==>
               && t.replyTo.value.fetch.Fetched?
               && objects1.Keys == objects0.Keys + NewTweetKeys(objects0, FetchedParent(t), resolve)
    requires saved <==> parentOk && TweetKey(t) !in objects1
    requires saved ==> objects2.Keys == objects1.Keys + {TweetKey(t)}
    ensures saved <==> Normalises(objects0, t, resolve)
    ensures saved ==> objects2.Keys == objects0.Keys + NewTweetKeys(objects0, t, resolve)
  {
  }

  /**
   * What the branch for a new tweet that is not a reply leaves, from the
   * Objects before it (`objects0`) to the Objects after it (`objects1`): a
   * share returns its target and saves nothing; anything else that succeeds
   * is the new status Object whose parent is the sole link's target;
   * missing `entities` fails; and the branch succeeds exactly when the tweet
   * normalises, adding exactly its new keys.
   */
  ghost predicate LinkedSaved(objects0: map<ObjKey, Obj>, objects1: map<ObjKey, Obj>, t: Tweet,
                              resolve: map<string, ObjKey>, res: Result<(bool, ObjKey)>)
  {
    && (IsShare(objects0, t, resolve) ==> res == Ok((true, resolve[LinkTarget(SoleLink(t).value)])) && objects1 == objects0)
    && (res.Ok? && res.value.0 ==> IsShare(objects0, t, resolve))
    && (res.Ok? && !res.value.0 ==>
          && res.value.1 == TweetKey(t)
          && TweetKey(t) in objects1
          && objects1[TweetKey(t)] ==
               NewTweetObj(t, if SoleLink(t).Some? && LinkTarget(SoleLink(t).value) in resolve
                              then Some(resolve[LinkTarget(SoleLink(t).value)]) else None))
    && (t.entities.None? ==> res == Err(MissingKey("entities")))
    && (res.Ok? <==> Normalises(objects0, t, resolve))
    && (res.Ok? ==> objects1.Keys == objects0.Keys + NewTweetKeys(objects0, t, resolve))
  }

  /**
   * The branch of `raw_object_for_tweet` for a tweet not stored yet that is
   * not a reply: a share stands for the linked Object, anything else is saved.
   */
  method SaveLinked(store: Store, t: Tweet, resolve: map<string, ObjKey>) returns (res: Result<(bool, ObjKey)>)
    requires store.Valid() && Resolvable(store, resolve) && !IsReply(t) && TweetKey(t) !in store.objects
    modifies store
    ensures store.Valid() && Resolvable(store, resolve)
    ensures RowsKept(old(store.Snapshot()), store.Snapshot())
    ensures store.stream == old(store.stream) && store.replies == old(store.replies)
    ensures IsShare(old(store.objects), t, resolve) ==> store.Snapshot() == old(store.Snapshot())
    ensures LinkedSaved(old(store.objects), store.objects, t, resolve, res)
  {
    var link := ParentForLink(store, t, resolve);
    if link.Err? {
      LinkedOutcome(store.objects, t, resolve);
      RowsKeptReflexive(store.Snapshot());
      return Err(link.failure);
    }
    res := ShareOrSave(store, t, resolve, link.value.0, link.value.1);
  }

  /** The end of the `elif` branch: a share stands for its target, anything else is saved with the link's parent. */
  method ShareOrSave(store: Store, t: Tweet, resolve: map<string, ObjKey>, share: bool, parent: Option<ObjKey>)
    returns (res: Result<(bool, ObjKey)>)
    requires store.Valid() && Resolvable(store, resolve) && !IsReply(t) && TweetKey(t) !in store.objects
    requires t.entities.Some? && t.entities.value.urls.Some?
    requires share <==> IsShare(store.objects, t, resolve)
    requires parent == (if SoleLink(t).Some? && LinkTarget(SoleLink(t).value) in resolve
                        then Some(resolve[LinkTarget(SoleLink(t).value)]) else None)
    modifies store
    ensures store.Valid() && Resolvable(store, resolve)
    ensures RowsKept(old(store.Snapshot()), store.Snapshot())
    ensures store.stream == old(store.stream) && store.replies == old(store.replies)
    ensures res.Ok?
    ensures share ==> res == Ok((true, parent.value)) && store.Snapshot() == old(store.Snapshot())
    ensures !share ==>
              && res == Ok((false, TweetKey(t)))
              && store.objects == old(store.objects)[TweetKey(t) := NewTweetObj(t, parent)]
    ensures LinkedSaved(old(store.objects), store.objects, t, resolve, res)
  {
    if share {
      LinkedSavedByShare(store.objects, t, resolve);
      RowsKeptReflexive(store.Snapshot());
      return Ok((true, parent.value));
    }
    LinkedSavedBySave(store.objects, t, resolve, parent);
    res := SaveTweet(store, t, parent);
  }

  /** A share leaves the Objects as they are and returns its target: that is `LinkedSaved`. */
  lemma LinkedSavedByShare(objects0: map<ObjKey, Obj>, t: Tweet, resolve: map<string, ObjKey>)
    requires !IsReply(t) && TweetKey(t) !in objects0 && IsShare(objects0, t, resolve)
    ensures LinkedSaved(objects0, objects0, t, resolve, Ok((true, resolve[LinkTarget(SoleLink(t).value)])))
  {
    LinkedOutcome(objects0, t, resolve);
  }

  /** A tweet with urls that is not a share adds the new status Object with the link's parent: that is `LinkedSaved`. */
  lemma LinkedSavedBySave(objects0: map<ObjKey, Obj>, t: Tweet, resolve: map<string, ObjKey>, parent: Option<ObjKey>)
    requires !IsReply(t) && TweetKey(t) !in objects0
    requires t.entities.Some? && t.entities.value.urls.Some? && !IsShare(objects0, t, resolve)
    requires parent == (if SoleLink(t).Some? && LinkTarget(SoleLink(t).value) in resolve
                        then Some(resolve[LinkTarget(SoleLink(t).value)]) else None)
    ensures LinkedSaved(objects0, objects0[TweetKey(t) := NewTweetObj(t, parent)], t, resolve, Ok((false, TweetKey(t))))
  {
    LinkedOutcome(objects0, t, resolve);
    var objects1 := objects0[TweetKey(t) := NewTweetObj(t, parent)];
    assert objects1.Keys == objects0.Keys + {TweetKey(t)};
  }

  /** For a new tweet that is not a reply, what `Normalises` and `NewTweetKeys` come down to. */
  lemma LinkedOutcome(objects: map<ObjKey, Obj>, t: Tweet, resolve: map<string, ObjKey>)
    requires !IsReply(t) && TweetKey(t) !in objects
    ensures Normalises(objects, t, resolve) <==> t.entities.Some? && t.entities.value.urls.Some?
    ensures NewTweetKeys(objects, t, resolve) == if IsShare(objects, t, resolve) then {} else {TweetKey(t)}
  {
  }

  /** The reply branch of `raw_object_for_tweet` for a tweet not stored yet: the parent first, then the tweet. */
  method SaveReply(store: Store, t: Tweet, resolve: map<string, ObjKey>) returns (res: Result<(bool, ObjKey)>)
    requires store.Valid() && Resolvable(store, resolve) && IsReply(t) && TweetKey(t) !in store.objects
    modifies store
    ensures store.Valid() && Resolvable(store, resolve)
    ensures RowsKept(old(store.Snapshot()), store.Snapshot())
    ensures store.stream == old(store.stream) && store.replies == old(store.replies)
    ensures res.Ok? ==>
              && res == Ok((false, TweetKey(t)))
              && TweetKey(t) in store.objects
              && store.objects[TweetKey(t)] == NewTweetObj(t, store.objects[TweetKey(t)].inReplyTo)
              && store.objects[TweetKey(t)].inReplyTo.Some?
              && (ParentKey(t.replyTo.value) in old(store.objects) ==>
                    store.objects[TweetKey(t)].inReplyTo == Some(ParentKey(t.replyTo.value)))
    ensures res.Ok? <==> Normalises(old(store.objects), t, resolve)
    ensures res.Ok? ==> store.objects.Keys == old(store.objects).Keys + NewTweetKeys(old(store.objects), t, resolve)
    decreases Depth(t), 1
  {
    ghost var objects0 := store.objects;
    var parent := ParentForReply(store, t, resolve);
    if parent.Err? {
      ReplyOutcome(objects0, store.objects, store.objects, t, resolve, false, false);
      return Err(parent.failure);
    }
    ghost var withParent := store.Snapshot();
    res := SaveTweet(store, t, Some(parent.value));
    RowsKeptTransitive(old(store.Snapshot()), withParent, store.Snapshot());
    ReplyOutcome(objects0, withParent.objects, store.objects, t, resolve, true, res.Ok?);
  }

  /**
   * The parent of a reply: the stored Object with the parent's id, or else
   * the fetched parent normalised in turn (a non-200 answer is an error).
   */
  method ParentForReply(store: Store, t: Tweet, resolve: map<string, ObjKey>) returns (res: Result<ObjKey>)
    requires store.Valid() && Resolvable(store, resolve) && IsReply(t)
    modifies store
    ensures store.Valid() && Resolvable(store, resolve)
    ensures RowsKept(old(store.Snapshot()), store.Snapshot())
    ensures store.stream == old(store.stream) && store.replies == old(store.replies)
    ensures res.Ok? ==> res.value in store.objects
    ensures ParentKey(t.replyTo.value) in old(store.objects) ==>
              res == Ok(ParentKey(t.replyTo.value)) && store.Snapshot() == old(store.Snapshot())
    ensures ParentKey(t.replyTo.value) !in old(store.objects) && t.replyTo.value.fetch.HttpError? ==>
              res == Err(HttpStatus(t.replyTo.value.fetch.status)) && store.Snapshot() == old(store.Snapshot())
    ensures res.Ok? <==>
              || ParentKey(t.replyTo.value) in old(store.objects)
              || (t.replyTo.value.fetch.Fetched? && Normalises(old(store.objects), FetchedParent(t), resolve))
    ensures res.Ok? && ParentKey(t.replyTo.value) !in old(store.objects) ==>
              && t.replyTo.value.fetch.Fetched?
              && store.objects.Keys == old(store.objects).Keys + NewTweetKeys(old(store.objects), FetchedParent(t), resolve)
    decreases Depth(t), 0
  {
    var pid := ParentKey(t.replyTo.value);
    if pid in store.objects {
      return Ok(pid);
    }
    match t.replyTo.value.fetch
    case HttpError(status) =>
      return Err(HttpStatus(status));
    case Fetched(payload, scan) =>
      var next := FetchedParent(t);
      var up := RawObjectForTweet(store, next, resolve);
      if up.Err? {
        return Err(up.failure);
      }
      return Ok(up.value.1);
  }

  /**
   * The `elif` branch for a tweet that is not a reply: `entities['urls']`
   * must be there; a single link the resolver knows becomes the parent,
   * and the tweet is a share when its text collapses to nothing.
   */
  method ParentForLink(store: Store, t: Tweet, resolve: map<string, ObjKey>)
    returns (res: Result<(bool, Option<ObjKey>)>)
    requires store.Valid() && Resolvable(store, resolve) && !IsReply(t)
    ensures t.entities.None? ==> res == Err(MissingKey("entities"))
    ensures t.entities.Some? && t.entities.value.urls.None? ==> res == Err(MissingKey("urls"))
    ensures t.entities.Some? && t.entities.value.urls.Some? ==> res.Ok?
    ensures res.Ok? ==>
              && res.value.1 == (if SoleLink(t).Some? && LinkTarget(SoleLink(t).value) in resolve
                                 then Some(resolve[LinkTarget(SoleLink(t).value)]) else None)
              && (res.value.0 <==> IsShare(store.objects, t, resolve))
              && (res.value.0 ==> res.value.1.Some?)
  {
    if t.entities.None? {
      return Err(MissingKey("entities"));
    }
    if t.entities.value.urls.None? {
      return Err(MissingKey("urls"));
    }
    var urls := t.entities.value.urls.value;
    if |urls| == 1 && LinkTarget(urls[0]) in resolve {
      var about := resolve[LinkTarget(urls[0])];
      var share := Collapsed(t.text, urls[0].span, store.objects[about].title) == [];
      return Ok((share, Some(about)));
    }
    return Ok((false, None));
  }

  /** The status Object saved for a new tweet: its html body, time, permalink and author. */
  function NewTweetObj(t: Tweet, parent: Option<ObjKey>): Obj
  {
    Obj(Status, None, Some(TweetBody(t)), Some(t.createdAt), Some(Permalink(t)), UserKey(t.user), None, parent)
  }

  /** The tail of `raw_object_for_tweet`: the new status Object, saved once. */
  method SaveTweet(store: Store, t: Tweet, parent: Option<ObjKey>) returns (res: Result<(bool, ObjKey)>)
    requires store.Valid() && (parent.Some? ==> parent.value in store.objects)
    modifies store
    ensures store.Valid()
    ensures RowsKept(old(store.Snapshot()), store.Snapshot())
    ensures store.stream == old(store.stream) && store.replies == old(store.replies)
    ensures TweetKey(t) in old(store.objects) ==> res == Err(DuplicateKey)
    ensures TweetKey(t) !in old(store.objects) ==>
              && res == Ok((false, TweetKey(t)))
              && store.objects == old(store.objects)[TweetKey(t) := NewTweetObj(t, parent)]
  {
    var key := TweetKey(t);
    var body := TweetHtml(t);
    var author := AccountForTwitterUser(store, t.user, None);
    ghost var withAuthor := store.Snapshot();
    var saved := store.InsertObject(key, Obj(Status, None, Some(body), Some(t.createdAt), Some(Permalink(t)), author, None, parent));
    RowsKeptTransitive(old(store.Snapshot()), withAuthor, store.Snapshot());
    if saved.Err? {
      return Err(saved.failure);
    }
    res := Ok((false, key));
  }

  // ---------------------------------------------------------------------
  // poll_twitter

  /** What one timeline item was recorded as: the verb, its Object and the stream row's Object. */
  datatype Projection = Projection(verb: Verb, tweet: ObjKey, root: ObjKey)

  /**
   * One pass of the timeline loop: the posting account, the tweet's Object,
   * then the stream rows.  A plain post is recorded on itself, a reply on
   * its thread root together with one reply row per Object between it and
   * the root, and a retweet or collapsed share on the root with the
   * retweeting account as actor.  Each row is a get-or-create.
   */
  method ProjectTweet(store: Store, user: UserId, orig: Tweet, resolve: map<string, ObjKey>)
    returns (res: Result<Projection>)
    requires store.Valid() && Resolvable(store, resolve)
    modifies store
    ensures store.Valid() && Resolvable(store, resolve)
    ensures RowsKept(old(store.Snapshot()), store.Snapshot())
    ensures StreamsKept(old(store.Snapshot()), store.Snapshot())
    ensures UserKey(orig.user) in store.accounts
    ensures res.Ok? ==>
              && Recorded(store, user, res.value, UserKey(orig.user), old(store.stream), old(store.replies))
              && (orig.retweeted.Some? ==> res.value.verb == Share)
              && (res.value.verb != Share ==> res.value.tweet == TweetKey(Subject(orig)))
    ensures res.Ok? <==> Normalises(old(store.objects), Subject(orig), resolve)
    ensures res.Err? ==> store.stream == old(store.stream)
    ensures res.Ok? ==> store.stream.Keys == old(store.stream).Keys + {StreamKey(user, res.value.root)}
  {
    var tweetdata := Subject(orig);
    var actor := AccountForTwitterUser(store, orig.user, None);
    ghost var afterActor := store.Snapshot();
    var raw := RawObjectForTweet(store, tweetdata, resolve);
    RowsKeptTransitive(old(store.Snapshot()), afterActor, store.Snapshot());
    if raw.Err? {
      return Err(raw.failure);
    }
    ghost var afterRaw := store.Snapshot();
    var p := RecordItem(store, user, raw.value.1, orig.retweeted.Some? || raw.value.0, actor);
    RowsKeptTransitive(old(store.Snapshot()), afterRaw, store.Snapshot());
    res := Ok(p);
  }

  /** `retweeted_status` when the item is a retweet, else the item itself. */
  function Subject(orig: Tweet): Tweet
  {
    if orig.retweeted.Some? then orig.retweeted.value else orig
  }

  /**
   * The UserStream row an item writes on its root when there is none yet:
   * the sharer as actor for a share, else the tweet's author, with the
   * verb and the tweet's time.
   */
  function ItemEntry(objects: map<ObjKey, Obj>, p: Projection, sharer: AccountKey): StreamEntry
    requires p.tweet in objects
  {
    StreamEntry(if p.verb == Share then sharer else objects[p.tweet].author, p.verb, objects[p.tweet].time)
  }

  /**
   * The stream rows of one item are in place: a post on itself, a reply
   * or share on its thread root, a new row carrying the verb, the actor and
   * the tweet's time, and for a reply one reply row per Object between the
   * tweet and the root.
   */
  ghost predicate Recorded(store: Store, user: UserId, p: Projection, sharer: AccountKey,
                           stream0: map<StreamKey, StreamEntry>, replies0: map<ReplyKey, ReplyEntry>)
    reads store
  {
    && store.Valid()
    && p.tweet in store.objects
    && p.root == RootOf(store.objects, store.rank, p.tweet)
    && store.stream.Keys == stream0.Keys + {StreamKey(user, p.root)}
    && (p.verb == Post || p.verb == Reply || p.verb == Share)
    && (p.verb == Post ==> store.objects[p.tweet].inReplyTo.None?)
    && (p.verb == Reply ==> store.objects[p.tweet].inReplyTo.Some?)
    && (StreamKey(user, p.root) !in stream0 ==>
          store.stream[StreamKey(user, p.root)] == ItemEntry(store.objects, p, sharer))
    && (p.verb == Reply ==>
          store.replies == ReplyRows(store.objects, user, p.root, Ancestry(store.objects, store.rank, p.tweet), replies0))
    && (p.verb != Reply ==> store.replies == replies0)
  }

  /** The three cases of the stream projection for a stored tweet Object. */
  method RecordItem(store: Store, user: UserId, tweet: ObjKey, share: bool, actor: AccountKey)
    returns (p: Projection)
    requires store.Valid() && tweet in store.objects && actor in store.accounts
    modifies store
    ensures Recorded(store, user, p, actor, old(store.stream), old(store.replies))
    ensures p.tweet == tweet && (p.verb == Share <==> share)
    ensures store.media == old(store.media) && store.persons == old(store.persons)
    ensures store.accounts == old(store.accounts) && store.objects == old(store.objects) && store.rank == old(store.rank)
    ensures RowsKept(old(store.Snapshot()), store.Snapshot()) && StreamsKept(old(store.Snapshot()), store.Snapshot())
  {
    RowsKeptReflexive(store.Snapshot());
    var obj := store.objects[tweet];
    if !share && obj.inReplyTo.None? {
      store.EnsureStream(StreamKey(user, tweet), StreamEntry(obj.author, Post, obj.time));
      p := Projection(Post, tweet, tweet);
      return;
    }
    if !share {
      p := RecordReply(store, user, tweet);
      return;
    }
    var root := store.WalkToRoot(tweet);
    store.EnsureStream(StreamKey(user, root), StreamEntry(actor, Share, obj.time));
    p := Projection(Share, tweet, root);
  }

  /** The reply case of the projection: the row on the thread root, then one reply row per Object below it. */
  method RecordReply(store: Store, user: UserId, tweet: ObjKey) returns (p: Projection)
    requires store.Valid() && tweet in store.objects && store.objects[tweet].inReplyTo.Some?
    modifies store
    ensures Recorded(store, user, p, old(store.objects[tweet].author), old(store.stream), old(store.replies))
    ensures p.tweet == tweet && p.verb == Reply
    ensures store.media == old(store.media) && store.persons == old(store.persons)
    ensures store.accounts == old(store.accounts) && store.objects == old(store.objects) && store.rank == old(store.rank)
    ensures RowsKept(old(store.Snapshot()), store.Snapshot()) && StreamsKept(old(store.Snapshot()), store.Snapshot())
  {
    var obj := store.objects[tweet];
    var root := store.WalkToRoot(tweet);
    store.EnsureStream(StreamKey(user, root), StreamEntry(obj.author, Reply, obj.time));
    ghost var middle := store.Snapshot();
    store.RecordReplies(user, root, tweet);
    StreamsKeptTransitive(old(store.Snapshot()), middle, store.Snapshot());
    p := Projection(Reply, tweet, root);
  }

  /** The home timeline request's answer: the tweets, newest first, or a non-200 status. */
  datatype TimelineAnswer = Timeline(tweets: seq<Tweet>) | TimelineError(status: nat)

  /** The UserStream keys of the items whose projection succeeded. */
  function RecordedKeys(user: UserId, outcomes: seq<Result<Projection>>): set<StreamKey>
  {
    if outcomes == [] then {}
    else
      (if outcomes[0].Ok? then {StreamKey(user, outcomes[0].value.root)} else {})
      + RecordedKeys(user, outcomes[1..])
  }

  lemma {:induction false} RecordedKeysAvoid(user: UserId, outcomes: seq<Result<Projection>>, from: nat, root: ObjKey)
    requires from <= |outcomes|
    requires forall l | from <= l < |outcomes| && outcomes[l].Ok? :: outcomes[l].value.root != root
    ensures StreamKey(user, root) !in RecordedKeys(user, outcomes[from..])
    decreases |outcomes| - from
  {
    if from < |outcomes| {
      RecordedKeysAvoid(user, outcomes, from + 1, root);
      assert outcomes[from..][1..] == outcomes[from + 1..];
    }
  }

  /** Item `j` is the oldest item projected onto its root, and the root had no row before the poll. */
  ghost predicate FirstOnRoot(user: UserId, outcomes: seq<Result<Projection>>, j: int, stream0: map<StreamKey, StreamEntry>)
    requires 0 <= j < |outcomes| && outcomes[j].Ok?
  {
    && StreamKey(user, outcomes[j].value.root) !in stream0
    && forall l | j < l < |outcomes| && outcomes[l].Ok? :: outcomes[l].value.root != outcomes[j].value.root
  }

  /** Every item from `from` whose tweet normalises against `objects0` was projected. */
  ghost predicate ProjectedWhenNormalising(objects0: map<ObjKey, Obj>, tl: seq<Tweet>, resolve: map<string, ObjKey>,
                                           outcomes: seq<Result<Projection>>, from: nat)
    requires |outcomes| == |tl|
  {
    forall j | from <= j < |tl| :: Normalises(objects0, Subject(tl[j]), resolve) ==> outcomes[j].Ok?
  }

  /**
   * A projected item's tweet and stream row are stored, a retweet is a
   * share, and anything else is recorded on the item's own tweet.
   */
  ghost predicate ProjectedStored(t: Tables, user: UserId, tl: seq<Tweet>, outcomes: seq<Result<Projection>>, from: nat)
    requires |outcomes| == |tl|
  {
    forall j | from <= j < |tl| && outcomes[j].Ok? ::
      && outcomes[j].value.tweet in t.objects
      && StreamKey(user, outcomes[j].value.root) in t.stream
      && (tl[j].retweeted.Some? ==> outcomes[j].value.verb == Share)
      && (outcomes[j].value.verb != Share ==> outcomes[j].value.tweet == TweetKey(Subject(tl[j])))
  }

  /** A row that was not there before carries the entry of the oldest item projected onto it. */
  ghost predicate FirstEntries(t: Tables, user: UserId, stream0: map<StreamKey, StreamEntry>, tl: seq<Tweet>,
                               outcomes: seq<Result<Projection>>, from: nat)
    requires |outcomes| == |tl|
  {
    forall j | from <= j < |tl| && outcomes[j].Ok? && FirstOnRoot(user, outcomes, j, stream0) ::
      && outcomes[j].value.tweet in t.objects
      && StreamKey(user, outcomes[j].value.root) in t.stream
      && t.stream[StreamKey(user, outcomes[j].value.root)] == ItemEntry(t.objects, outcomes[j].value, UserKey(tl[j].user))
  }

  /**
   * What the timeline loop leaves in the tables `t` for the items `from..`
   * of `tl`, which is newest first and projected oldest first, starting from
   * the Objects `objects0` and the stream rows `stream0`: an item that
   * normalises is projected whatever became of the items before it, the
   * projected items are stored, the stream gains exactly their rows, and
   * each new row is the oldest such item's.
   */
  ghost predicate TimelineProjected(t: Tables, user: UserId, objects0: map<ObjKey, Obj>,
                                    stream0: map<StreamKey, StreamEntry>, tl: seq<Tweet>,
                                    resolve: map<string, ObjKey>, outcomes: seq<Result<Projection>>, from: nat)
    requires |outcomes| == |tl| && from <= |tl|
  {
    && ProjectedWhenNormalising(objects0, tl, resolve, outcomes, from)
    && ProjectedStored(t, user, tl, outcomes, from)
    && t.stream.Keys == stream0.Keys + RecordedKeys(user, outcomes[from..])
    && FirstEntries(t, user, stream0, tl, outcomes, from)
  }

  /** One pass of the timeline loop, item `i`, keeps TimelineProjected. */
  lemma TimelineStep(before: Tables, after: Tables, user: UserId, objects0: map<ObjKey, Obj>,
                     stream0: map<StreamKey, StreamEntry>, tl: seq<Tweet>, resolve: map<string, ObjKey>,
                     outcomes: seq<Result<Projection>>, i: nat, item: Result<Projection>)
    requires i < |tl| == |outcomes|
    requires TimelineProjected(before, user, objects0, stream0, tl, resolve, outcomes, i + 1)
    requires ObjectsKept(objects0, before.objects)
    requires RowsKept(before, after) && StreamsKept(before, after)
    requires Normalises(before.objects, Subject(tl[i]), resolve) ==> item.Ok?
    requires item.Err? ==> after.stream == before.stream
    requires item.Ok? ==>
               && after.stream.Keys == before.stream.Keys + {StreamKey(user, item.value.root)}
               && item.value.tweet in after.objects
               && (tl[i].retweeted.Some? ==> item.value.verb == Share)
               && (item.value.verb != Share ==> item.value.tweet == TweetKey(Subject(tl[i])))
               && (StreamKey(user, item.value.root) !in before.stream ==>
                     after.stream[StreamKey(user, item.value.root)] == ItemEntry(after.objects, item.value, UserKey(tl[i].user)))
    ensures TimelineProjected(after, user, objects0, stream0, tl, resolve, outcomes[i := item], i)
  {
    var next := outcomes[i := item];
    if Normalises(objects0, Subject(tl[i]), resolve) {
      NormalisesKept(objects0, before.objects, Subject(tl[i]), resolve);
    }
    ProjectedWhenNormalisingStep(objects0, tl, resolve, outcomes, i, item);
    ProjectedStoredStep(before, after, user, tl, outcomes, i, item);
    assert next[i..] == [item] + outcomes[i + 1..];
    assert ([item] + outcomes[i + 1..])[1..] == outcomes[i + 1..];
    FirstEntriesStep(before, after, user, stream0, tl, outcomes, i, item);
  }

  lemma ProjectedWhenNormalisingStep(objects0: map<ObjKey, Obj>, tl: seq<Tweet>, resolve: map<string, ObjKey>,
                                     outcomes: seq<Result<Projection>>, i: nat, item: Result<Projection>)
    requires i < |tl| == |outcomes|
    requires ProjectedWhenNormalising(objects0, tl, resolve, outcomes, i + 1)
    requires Normalises(objects0, Subject(tl[i]), resolve) ==> item.Ok?
    ensures ProjectedWhenNormalising(objects0, tl, resolve, outcomes[i := item], i)
  {
  }

  lemma ProjectedStoredStep(before: Tables, after: Tables, user: UserId, tl: seq<Tweet>,
                            outcomes: seq<Result<Projection>>, i: nat, item: Result<Projection>)
    requires i < |tl| == |outcomes|
    requires ProjectedStored(before, user, tl, outcomes, i + 1)
    requires RowsKept(before, after) && StreamsKept(before, after)
    requires item.Ok? ==>
               && StreamKey(user, item.value.root) in after.stream
               && item.value.tweet in after.objects
               && (tl[i].retweeted.Some? ==> item.value.verb == Share)
               && (item.value.verb != Share ==> item.value.tweet == TweetKey(Subject(tl[i])))
    ensures ProjectedStored(after, user, tl, outcomes[i := item], i)
  {
  }

  /** The rows written for the items older than `i` survive, and item `i` writes its row when it is the first. */
  lemma FirstEntriesStep(before: Tables, after: Tables, user: UserId, stream0: map<StreamKey, StreamEntry>,
                         tl: seq<Tweet>, outcomes: seq<Result<Projection>>, i: nat, item: Result<Projection>)
    requires i < |tl| == |outcomes|
    requires FirstEntries(before, user, stream0, tl, outcomes, i + 1)
    requires before.stream.Keys == stream0.Keys + RecordedKeys(user, outcomes[i + 1..])
    requires RowsKept(before, after) && StreamsKept(before, after)
    requires item.Ok? ==>
               && StreamKey(user, item.value.root) in after.stream
               && item.value.tweet in after.objects
               && (StreamKey(user, item.value.root) !in before.stream ==>
                     after.stream[StreamKey(user, item.value.root)] == ItemEntry(after.objects, item.value, UserKey(tl[i].user)))
    ensures FirstEntries(after, user, stream0, tl, outcomes[i := item], i)
  {
    var next := outcomes[i := item];
    forall j | i <= j < |tl| && next[j].Ok? && FirstOnRoot(user, next, j, stream0)
      ensures && next[j].value.tweet in after.objects
              && StreamKey(user, next[j].value.root) in after.stream
              && after.stream[StreamKey(user, next[j].value.root)] == ItemEntry(after.objects, next[j].value, UserKey(tl[j].user))
    {
      if j == i {
        var root := item.value.root;
        forall l | i + 1 <= l < |outcomes| && outcomes[l].Ok?
          ensures outcomes[l].value.root != root
        {
          assert next[l] == outcomes[l];
        }
        RecordedKeysAvoid(user, outcomes, i + 1, root);
        assert StreamKey(user, root) !in before.stream;
      } else {
        assert next[j] == outcomes[j];
        forall l | j < l < |outcomes| && outcomes[l].Ok?
          ensures outcomes[l].value.root != outcomes[j].value.root
        {
          assert next[l] == outcomes[l];
        }
        assert FirstOnRoot(user, outcomes, j, stream0);
        var key := StreamKey(user, outcomes[j].value.root);
        assert key in before.stream && before.stream[key] == ItemEntry(before.objects, outcomes[j].value, UserKey(tl[j].user));
      }
    }
  }

  /**
   * `poll_twitter`: nothing happens for an account whose Person has no
   * user; the OAuth token must split as key:secret; then the timeline is
   * projected oldest first, and an item that fails is skipped without
   * stopping the ones after it.  `outcomes[i]` is what became of item i.
   */
  method PollTwitter(store: Store, account: AccountKey, authinfo: string, answer: TimelineAnswer,
                     resolve: map<string, ObjKey>)
    returns (res: Result<()>, ghost outcomes: seq<Result<Projection>>)
    requires store.Valid() && Resolvable(store, resolve) && account in store.accounts
    modifies store
    ensures store.Valid()
    ensures RowsKept(old(store.Snapshot()), store.Snapshot())
    ensures StreamsKept(old(store.Snapshot()), store.Snapshot())
    ensures old(store.persons[store.accounts[account].person].user).None? ==>
              res == Ok(()) && store.Snapshot() == old(store.Snapshot())
    ensures old(store.persons[store.accounts[account].person].user).Some? && ':' !in authinfo ==>
              res == Err(NoSeparator) && store.Snapshot() == old(store.Snapshot())
    ensures old(store.persons[store.accounts[account].person].user).Some? && ':' in authinfo && answer.TimelineError? ==>
              res == Err(HttpStatus(answer.status)) && store.Snapshot() == old(store.Snapshot())
    ensures old(store.persons[store.accounts[account].person].user).Some? && ':' in authinfo && answer.Timeline? ==>
              && res == Ok(())
              && |outcomes| == |answer.tweets|
              && TimelineProjected(store.Snapshot(), old(store.persons[store.accounts[account].person].user).value,
                                   old(store.objects), old(store.stream), answer.tweets, resolve, outcomes, 0)
  {
    outcomes := [];
    res := Ok(());
    var user := store.persons[store.accounts[account].person].user;
    if user.Some? {
      var token := SplitOnce(authinfo, ':');
      if token.None? {
        res := Err(NoSeparator);
      } else if answer.TimelineError? {
        res := Err(HttpStatus(answer.status));
      } else {
        outcomes := ProjectTimeline(store, user.value, answer.tweets, resolve);
      }
    }
  }

  /** The loop of `poll_twitter`: `for orig_tweetdata in reversed(tl)`, each item in its own `try`. */
  method ProjectTimeline(store: Store, user: UserId, tl: seq<Tweet>, resolve: map<string, ObjKey>)
    returns (ghost outcomes: seq<Result<Projection>>)
    requires store.Valid() && Resolvable(store, resolve)
    modifies store
    ensures store.Valid()
    ensures RowsKept(old(store.Snapshot()), store.Snapshot())
    ensures StreamsKept(old(store.Snapshot()), store.Snapshot())
    ensures |outcomes| == |tl|
    ensures TimelineProjected(store.Snapshot(), user, old(store.objects), old(store.stream), tl, resolve, outcomes, 0)
  {
    outcomes := seq(|tl|, _ => Err(DuplicateKey));
    RowsKeptReflexive(store.Snapshot());
    assert outcomes[|tl|..] == [];
    var i := |tl|;
    while i > 0
      invariant 0 <= i <= |tl| && |outcomes| == |tl|
      invariant store.Valid() && Resolvable(store, resolve)
      invariant RowsKept(old(store.Snapshot()), store.Snapshot())
      invariant StreamsKept(old(store.Snapshot()), store.Snapshot())
      invariant TimelineProjected(store.Snapshot(), user, old(store.objects), old(store.stream), tl, resolve, outcomes, i)
    {
      i := i - 1;
      ghost var before := store.Snapshot();
      var item := ProjectTweet(store, user, tl[i], resolve);
      TimelineStep(before, store.Snapshot(), user, old(store.objects), old(store.stream), tl, resolve, outcomes, i, item);
      RowsKeptTransitive(old(store.Snapshot()), before, store.Snapshot());
      StreamsKeptTransitive(old(store.Snapshot()), before, store.Snapshot());
      outcomes := outcomes[i := item];
    }
  }
}

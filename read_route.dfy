/**
 * `/api/danmaku`: `GET` lists an episode's comments, falling back to the
 * canonical bucket named by the video's map record; `POST` stores one
 * viewer comment.
 */
module ReadRoute {
  import opened Common
  import opened Text
  import opened Slug
  import opened Storage
  import opened Requests

  /** The three query values; None is a missing parameter (`get` returns `null`). */
  datatype Query = Query(source: Option<string>, id: Option<string>, episode: Option<string>)

  datatype GetReply = BadQuery | Comments(entries: seq<Entry>)

  /** The GET schema: non-empty source and id, an episode that coerces to a whole non-negative number. */
  function ParseQuery(q: Query): Option<(string, string, nat)> {
    if q.source.Some? && q.source.value != "" && q.id.Some? && q.id.value != "" && CoerceIndex(q.episode).Some?
    then Some((q.source.value, q.id.value, CoerceIndex(q.episode).value))
    else None
  }

  /**
   * The slug the fallback reads: the record's own slug when truthy, else the
   * slug of its title and year when truthy. A missing key or a value that does
   * not parse gives none.
   */
  function FallbackSlug(stored: Option<Stored>): Option<string> {
    if stored.None? || stored.value.Unparsable? then None
    else
      var rec := stored.value.rec;
      if Truthy(rec.slug) then rec.slug
      else
        var built := BuildCanonicalSlug(rec.title, rec.year);
        if Truthy(built) then built else None
  }

  /** What `GET` answers for a store holding `zsets` and `strings`. */
  function Read(q: Query, zsets: map<Key, seq<Entry>>, strings: map<Key, Stored>): GetReply {
    match ParseQuery(q)
    case None => BadQuery
    case Some((source, id, episode)) =>
      var own := BucketIn(zsets, Bucket(source, id, episode));
      if own != [] then Comments(own)
      else
        var slug := FallbackSlug(Lookup(strings, MapSlot(source, id)));
        if slug.None? then Comments(own)
        else Comments(BucketIn(zsets, CanonicalBucket(slug.value, episode)))
  }

  /** The `GET` handler, which reads the bucket and, when it is empty, the map record and the canonical bucket. */
  method Get(store: Store, q: Query) returns (reply: GetReply)
    ensures reply == Read(q, store.zsets, store.strings)
  {
    var parsed := ParseQuery(q);
    if parsed.None? {
      return BadQuery;
    }
    var (source, id, episode) := parsed.value;
    var danmakus := store.ZRangeAll(Bucket(source, id, episode));
    if |danmakus| == 0 {
      var mapVal := store.GetString(MapSlot(source, id));
      if mapVal.Some? && mapVal.value.Record? {
        var slug := mapVal.value.rec.slug;
        if !Truthy(slug) {
          var built := BuildCanonicalSlug(mapVal.value.rec.title, mapVal.value.rec.year);
          slug := if Truthy(built) then built else None;
        }
        if Truthy(slug) {
          danmakus := store.ZRangeAll(CanonicalBucket(slug.value, episode));
        }
      }
    }
    reply := Comments(danmakus);
  }

  // ----- POST -----

  /**
   * The `POST` replies: 400 for an invalid body, `{ ok: true }` once saved, and
   * the fixed 500 `Internal Server Error` when the write throws. The store's
   * error message goes only to the log, so the reply does not carry it.
   */
  datatype PostReply = BadInput | Saved | SaveError

  /** The comment schema: a number time, a text of 1 to 100 characters, an optional string colour and mode 0 or 1. */
  function ParseViewerComment(v: Json): Option<Item> {
    var f := FieldsOf(v);
    var text := StringField(f, "text", 1);
    var color := OptionalString(f, "color");
    if v.JObject? && "time" in f && f["time"].JNum? && text.Some? && |text.value| <= 100 && color.Some?
      && ("mode" !in f || f["mode"] == JNum(0.0) || f["mode"] == JNum(1.0))
    then
      var mode := if "mode" !in f then None else if f["mode"] == JNum(0.0) then Some(0) else Some(1);
      Some(Item(f["time"].n, Some(PStr(text.value)), color.value, mode))
    else None
  }

  /** The POST schema: the bucket key and the comment, or None. */
  function ParsePost(body: Json): Option<(Key, Item)> {
    var f := FieldsOf(body);
    var source := StringField(f, "source", 1);
    var id := StringField(f, "id", 1);
    var episode := IndexField(f, "episode");
    if body.JObject? && source.Some? && id.Some? && episode.Some? && "danmaku" in f && ParseViewerComment(f["danmaku"]).Some?
    then Some((Bucket(source.value, id.value, episode.value), ParseViewerComment(f["danmaku"]).value))
    else None
  }

  /** The single write a valid POST issues: the comment, scored by its time, stamped with the server's clock. */
  function PostWrites(body: Json, now: int): seq<Write> {
    match ParsePost(body)
    case None => []
    case Some((key, item)) => [Added(key, [Entry(item.time, Member(item, PostedAt(now)))])]
  }

  /** The `POST` handler; `now` is the server's clock. */
  method Post(store: Store, body: Json, now: int) returns (reply: PostReply)
    modifies store
    ensures ParsePost(body).None? ==> reply == BadInput
    ensures ParsePost(body).Some? ==>
      reply == (if ParsePost(body).value.0 in store.rejects then SaveError else Saved)
    ensures store.log == old(store.log) + PostWrites(body, now)
    ensures store.zsets == ZsetsAfter(old(store.zsets), store.rejects, PostWrites(body, now))
    ensures store.strings == old(store.strings) && store.rejects == old(store.rejects)
  {
    var parsed := ParsePost(body);
    if parsed.None? {
      return BadInput;
    }
    var (key, item) := parsed.value;
    var err := store.ZAdd(key, [Entry(item.time, Member(item, PostedAt(now)))]);
    reply := if err.Some? then SaveError else Saved;
  }

  // ----- properties -----

  /** A query is accepted exactly when source and id are non-empty and the episode coerces to a whole number at least 0. */
  lemma QueryValidation(q: Query)
    ensures ParseQuery(q).Some? <==>
      Truthy(q.source) && Truthy(q.id) && CoerceNumber(q.episode).Some? && CoerceNumber(q.episode).value >= 0
    ensures Read(q, map[], map[]) == BadQuery <==> ParseQuery(q).None?
  {
  }

  /** A missing or blank `episode` parameter reads episode 0: `Number(null)` and `Number('')` are 0. */
  lemma MissingEpisodeIsZero(source: string, id: string, zsets: map<Key, seq<Entry>>, strings: map<Key, Stored>)
    requires source != "" && id != ""
    requires BucketIn(zsets, Bucket(source, id, 0)) != []
    ensures Read(Query(Some(source), Some(id), None), zsets, strings) == Comments(BucketIn(zsets, Bucket(source, id, 0)))
  {
    MissingIsZero(None);
  }

  /**
   * A non-empty bucket is answered as it is; neither the map record nor any
   * canonical bucket matters then.
   */
  lemma OwnBucketWins(q: Query, zsets: map<Key, seq<Entry>>, strings1: map<Key, Stored>, strings2: map<Key, Stored>)
    requires ParseQuery(q).Some?
    requires var (s, i, e) := ParseQuery(q).value; BucketIn(zsets, Bucket(s, i, e)) != []
    ensures var (s, i, e) := ParseQuery(q).value; Read(q, zsets, strings1) == Comments(BucketIn(zsets, Bucket(s, i, e)))
    ensures Read(q, zsets, strings1) == Read(q, zsets, strings2)
  {
  }

  /**
   * An empty bucket falls back to the canonical bucket for the same episode,
   * named by the record's slug or, failing that, by the slug of its title and
   * year.
   */
  lemma CanonicalFallback(source: string, id: string, episode: nat, zsets: map<Key, seq<Entry>>, strings: map<Key, Stored>,
                          rec: MapRecord)
    requires source != "" && id != ""
    requires BucketIn(zsets, Bucket(source, id, episode)) == []
    requires Lookup(strings, MapSlot(source, id)) == Some(Record(rec))
    ensures var q := Query(Some(source), Some(id), Some(NatToDigits(episode, 10)));
            (Truthy(rec.slug) ==> Read(q, zsets, strings) == Comments(BucketIn(zsets, CanonicalBucket(rec.slug.value, episode))))
            && (!Truthy(rec.slug) && Truthy(BuildCanonicalSlug(rec.title, rec.year)) ==>
                  Read(q, zsets, strings)
                  == Comments(BucketIn(zsets, CanonicalBucket(BuildCanonicalSlug(rec.title, rec.year).value, episode))))
  {
    DecimalCoerces(episode);
  }

  /**
   * A valid query never fails: without a record, with one that does not parse
   * or with no slug to derive, the answer is the (empty) bucket.
   */
  lemma FallbackNeverFails(q: Query, zsets: map<Key, seq<Entry>>, strings: map<Key, Stored>)
    requires ParseQuery(q).Some?
    ensures Read(q, zsets, strings).Comments?
    ensures var (s, i, e) := ParseQuery(q).value;
            FallbackSlug(Lookup(strings, MapSlot(s, i))).None? ==> Read(q, zsets, strings) == Comments(BucketIn(zsets, Bucket(s, i, e)))
    ensures var (s, i, e) := ParseQuery(q).value;
            (MapSlot(s, i) !in strings || strings[MapSlot(s, i)].Unparsable?) ==> FallbackSlug(Lookup(strings, MapSlot(s, i))).None?
  {
  }

  /**
   * The comment schema: a text of 1 to 100 characters and a mode that is
   * absent, 0 or 1; the comment keeps the time, text, colour and mode given.
   */
  lemma CommentValidation(v: Json)
    ensures ParseViewerComment(v).Some? ==>
      v.JObject? && "text" in v.fields && v.fields["text"].JStr? && 1 <= |v.fields["text"].s| <= 100
    ensures ParseViewerComment(v).Some? ==> ParseViewerComment(v).value.mode in {None, Some(0), Some(1)}
    ensures ParseViewerComment(v).Some? ==> ParseViewerComment(v).value.text == Some(PStr(v.fields["text"].s))
    ensures v.JObject? && "time" in v.fields && v.fields["time"].JNum? && "text" in v.fields && v.fields["text"].JStr?
            && "color" !in v.fields && "mode" !in v.fields ==>
            (ParseViewerComment(v).Some? <==> 1 <= |v.fields["text"].s| <= 100)
    ensures v.JObject? && "mode" in v.fields && v.fields["mode"] != JNum(0.0) && v.fields["mode"] != JNum(1.0) ==>
            ParseViewerComment(v).None?
  {
  }

  /**
   * A valid POST issues exactly one `zadd` of one member to the episode's
   * bucket, scored by the comment's time and stamped with `serverTime`; an
   * invalid one issues nothing.
   */
  lemma OneMemberPerPost(body: Json, now: int)
    ensures ParsePost(body).None? <==> PostWrites(body, now) == []
    ensures ParsePost(body).Some? ==>
      var (key, item) := ParsePost(body).value;
      var w := PostWrites(body, now);
      |w| == 1 && w[0].key == key && key.Bucket? && |w[0].members| == 1
      && w[0].members[0].score == item.time && w[0].members[0].member.stamp == PostedAt(now)
      && w[0].members[0].member.item == item
  {
  }
}

/**
 * `POST /api/danmaku/import`: fetch comments for an external episode with
 * the route's own parsers, append them to the episode's bucket and mirror
 * them into the canonical bucket of the title's slug.
 */
module ImportRoute {
  import opened Common
  import opened Text
  import opened Slug
  import opened Comments
  import opened Storage
  import opened Requests
  import opened Keys

  /** A body the schema accepts. */
  datatype ImportRequest = ImportRequest(
    source: string,
    videoId: string,
    episodeIndex: nat,
    danmakuSource: string,
    externalId: string,
    title: Option<string>,
    year: Option<string>)

  /** The replies: 400, 404, 200 and 500. */
  datatype ImportReply =
    | Invalid
    | NoDanmaku(error: string)
    | ImportedFrom(count: nat, source: string)
    | ServerError(details: string)

  function Status(r: ImportReply): int {
    match r
    case Invalid => 400
    case NoDanmaku(_) => 404
    case ImportedFrom(_, _) => 200
    case ServerError(_) => 500
  }

  /** The replies of the two providers for an external id, the comment time parser and the clock. */
  datatype ImportEnv = ImportEnv(
    dandanplayAt: string -> Response<Option<seq<DdpComment>>>,
    bilibiliAt: string -> Response<seq<Tag>>,
    parseTime: string -> real,
    now: int)

  /** The import schema: every field at once, or None. */
  function ParseImport(body: Json): Option<ImportRequest> {
    var f := FieldsOf(body);
    var source := StringField(f, "source", 1);
    var videoId := StringField(f, "videoId", 1);
    var episodeIndex := IndexField(f, "episodeIndex");
    var provider := StringField(f, "danmakuSource", 0);
    var externalId := StringField(f, "externalId", 1);
    var title := OptionalString(f, "title");
    var year := OptionalString(f, "year");
    if body.JObject? && source.Some? && videoId.Some? && episodeIndex.Some? && provider.Some?
      && (provider.value == "dandanplay" || provider.value == "bilibili")
      && externalId.Some? && title.Some? && year.Some?
    then Some(ImportRequest(source.value, videoId.value, episodeIndex.value, provider.value, externalId.value, title.value, year.value))
    else None
  }

  /** What the route's own fetchers yield for the request; their errors are `[]`. */
  function FetchedItems(req: ImportRequest, env: ImportEnv): seq<Item> {
    if req.danmakuSource == "dandanplay" then FetchDanDanPlayLocal(env.dandanplayAt(req.externalId), env.parseTime)
    else BilibiliLocalItems(env.bilibiliAt(req.externalId), env.parseTime)
  }

  function SourceBucket(req: ImportRequest): Key {
    Bucket(req.source, req.videoId, req.episodeIndex)
  }

  /**
   * The writes a valid request issues: the bucket's `zadd`, then, when it
   * succeeded and the slug is truthy, the mirroring writes.
   */
  function ImportWrites(req: ImportRequest, env: ImportEnv, rejects: map<Key, string>): seq<Write> {
    var items := FetchedItems(req, env);
    if items == [] then []
    else
      var members := ImportedMembers(items, env.now);
      [Added(SourceBucket(req), members)] + (if SourceBucket(req) in rejects then [] else MirrorWrites(req, members, rejects))
  }

  /**
   * Mirroring: with a truthy slug, the canonical `zadd` and, when that
   * succeeded, the map record `{title, year, slug}`.
   */
  function MirrorWrites(req: ImportRequest, members: seq<Entry>, rejects: map<Key, string>): seq<Write> {
    var slug := BuildCanonicalSlug(req.title, req.year);
    if !Truthy(slug) then []
    else
      var mirror := Added(CanonicalBucket(slug.value, req.episodeIndex), members);
      if mirror.key in rejects then [mirror]
      else [mirror, Put(MapSlot(req.source, req.videoId), Record(SlugRecord(req.title, req.year, slug.value)))]
  }

  function ImportReplyOf(req: ImportRequest, env: ImportEnv, rejects: map<Key, string>): ImportReply {
    var items := FetchedItems(req, env);
    if items == [] then NoDanmaku("No danmaku found from " + req.danmakuSource)
    else if SourceBucket(req) in rejects then ServerError(rejects[SourceBucket(req)])
    else ImportedFrom(|items|, req.danmakuSource)
  }

  /** The handler: the schema check, then the import proper. */
  method PostImport(store: Store, body: Json, env: ImportEnv) returns (reply: ImportReply)
    modifies store
    ensures ParseImport(body).None? ==> reply == Invalid && store.log == old(store.log)
    ensures ParseImport(body).Some? ==> reply == ImportReplyOf(ParseImport(body).value, env, store.rejects)
    ensures ParseImport(body).Some? ==> store.log == old(store.log) + ImportWrites(ParseImport(body).value, env, store.rejects)
    ensures store.zsets == ZsetsAfter(old(store.zsets), store.rejects, store.log[|old(store.log)|..])
    ensures store.strings == StringsAfter(old(store.strings), store.rejects, store.log[|old(store.log)|..])
    ensures store.rejects == old(store.rejects)
  {
    var parsed := ParseImport(body);
    if parsed.None? {
      assert store.log[|old(store.log)|..] == [];
      return Invalid;
    }
    reply := Import(store, parsed.value, env);
  }

  /** The import of a request the schema accepted. It reads nothing from the store: there is no existence check. */
  method Import(store: Store, req: ImportRequest, env: ImportEnv) returns (reply: ImportReply)
    modifies store
    ensures reply == ImportReplyOf(req, env, store.rejects)
    ensures store.log == old(store.log) + ImportWrites(req, env, store.rejects)
    ensures store.zsets == ZsetsAfter(old(store.zsets), store.rejects, ImportWrites(req, env, store.rejects))
    ensures store.strings == StringsAfter(old(store.strings), store.rejects, ImportWrites(req, env, store.rejects))
    ensures store.rejects == old(store.rejects)
  {
    var items := FetchItems(req, env);
    if |items| == 0 {
      return NoDanmaku("No danmaku found from " + req.danmakuSource);
    }
    var members := ImportedMembers(items, env.now);
    var zsets0, strings0 := store.zsets, store.strings;
    var err := store.ZAdd(SourceBucket(req), members);
    if err.Some? {
      return ServerError(err.value);
    }
    var mirrored := Mirror(store, req, members);
    AfterConcat(zsets0, strings0, store.rejects, [Added(SourceBucket(req), members)], mirrored);
    AppendAssoc(old(store.log), [Added(SourceBucket(req), members)], mirrored);
    reply := ImportedFrom(|items|, req.danmakuSource);
  }

  /** The provider switch: the route's own fetcher for the requested provider. */
  method FetchItems(req: ImportRequest, env: ImportEnv) returns (items: seq<Item>)
    ensures items == FetchedItems(req, env)
  {
    if req.danmakuSource == "dandanplay" {
      items := FetchDanDanPlayLocal(env.dandanplayAt(req.externalId), env.parseTime);
    } else {
      items := FetchBilibiliLocal(env.bilibiliAt(req.externalId), env.parseTime);
    }
  }

  /** The mirroring step, whose failures are caught and ignored; `issued` is what it wrote. */
  method Mirror(store: Store, req: ImportRequest, members: seq<Entry>) returns (ghost issued: seq<Write>)
    modifies store
    ensures issued == MirrorWrites(req, members, store.rejects)
    ensures store.log == old(store.log) + issued
    ensures store.zsets == ZsetsAfter(old(store.zsets), store.rejects, issued)
    ensures store.strings == StringsAfter(old(store.strings), store.rejects, issued)
    ensures store.rejects == old(store.rejects)
  {
    var slug := BuildCanonicalSlug(req.title, req.year);
    issued := [];
    if Truthy(slug) {
      var mirror := CanonicalBucket(slug.value, req.episodeIndex);
      var zsets0, strings0 := store.zsets, store.strings;
      var err := store.ZAdd(mirror, members);
      issued := [Added(mirror, members)];
      if err.None? {
        var record := Record(SlugRecord(req.title, req.year, slug.value));
        var err2 := store.SetString(MapSlot(req.source, req.videoId), record);
        AfterConcat(zsets0, strings0, store.rejects, issued, [Put(MapSlot(req.source, req.videoId), record)]);
        issued := issued + [Put(MapSlot(req.source, req.videoId), record)];
      }
    }
  }

  // ----- properties -----

  /**
   * The schema: a request is accepted exactly when it is an object whose
   * source, videoId and externalId are non-empty strings, whose episodeIndex
   * is a whole non-negative number, whose provider is one of the two, and
   * whose title and year are absent or strings.
   */
  lemma Validation(body: Json)
    ensures ParseImport(body).Some? <==>
      (body.JObject?
       && StringField(body.fields, "source", 1).Some?
       && StringField(body.fields, "videoId", 1).Some?
       && StringField(body.fields, "externalId", 1).Some?
       && IndexField(body.fields, "episodeIndex").Some?
       && ("danmakuSource" in body.fields
           && (body.fields["danmakuSource"] == JStr("dandanplay") || body.fields["danmakuSource"] == JStr("bilibili")))
       && ("title" !in body.fields || body.fields["title"].JStr?)
       && ("year" !in body.fields || body.fields["year"].JStr?))
  {
  }

  /** Nothing fetched: 404 naming the provider, and nothing written. */
  lemma EmptyWritesNothing(req: ImportRequest, env: ImportEnv, rejects: map<Key, string>)
    requires FetchedItems(req, env) == []
    ensures ImportReplyOf(req, env, rejects) == NoDanmaku("No danmaku found from " + req.danmakuSource)
    ensures ImportWrites(req, env, rejects) == []
  {
  }

  /**
   * With items, the first write is always the bucket's `zadd` of one member
   * per item, scored by its time and stamped as imported; on success the reply
   * counts the items and names the provider.
   */
  lemma AlwaysAppends(req: ImportRequest, env: ImportEnv, rejects: map<Key, string>)
    requires FetchedItems(req, env) != []
    ensures var w := ImportWrites(req, env, rejects);
            var items := FetchedItems(req, env);
            w != [] && w[0] == Added(Bucket(req.source, req.videoId, req.episodeIndex), ImportedMembers(items, env.now))
            && |w[0].members| == |items|
            && (forall i | 0 <= i < |items| ::
                  w[0].members[i].score == items[i].time && w[0].members[i].member == Member(items[i], ImportedAt(env.now)))
    ensures SourceBucket(req) !in rejects ==>
      ImportReplyOf(req, env, rejects) == ImportedFrom(|FetchedItems(req, env)|, req.danmakuSource)
  {
  }

  /**
   * Canonical mirroring: with a truthy slug the same members go to the
   * canonical bucket of that slug, then `{title, year, slug}` to the map key;
   * without one, neither is written.
   */
  lemma Mirroring(req: ImportRequest, env: ImportEnv, rejects: map<Key, string>)
    requires FetchedItems(req, env) != [] && SourceBucket(req) !in rejects
    ensures var w := ImportWrites(req, env, rejects);
            var slug := BuildCanonicalSlug(req.title, req.year);
            (!Truthy(slug) ==> |w| == 1)
            && (Truthy(slug) ==>
                  |w| >= 2 && w[1] == Added(CanonicalBucket(slug.value, req.episodeIndex), w[0].members)
                  && (w[1].key !in rejects ==>
                        |w| == 3 && w[2] == Put(MapSlot(req.source, req.videoId), Record(SlugRecord(req.title, req.year, slug.value)))))
    ensures req.title.None? || Blank(req.title.value) ==> |ImportWrites(req, env, rejects)| == 1
  {
  }

  /**
   * Failures of the mirroring step are swallowed: the reply depends on the
   * store's refusals only through the episode's own bucket.
   */
  lemma MirrorFailuresIgnored(req: ImportRequest, env: ImportEnv, rejects1: map<Key, string>, rejects2: map<Key, string>)
    requires Lookup(rejects1, SourceBucket(req)) == Lookup(rejects2, SourceBucket(req))
    ensures ImportReplyOf(req, env, rejects1) == ImportReplyOf(req, env, rejects2)
  {
  }

  /** With items, a truthy slug and no refusal, the writes are the bucket's, the canonical bucket's and the map record. */
  lemma AcceptedWrites(req: ImportRequest, env: ImportEnv)
    requires FetchedItems(req, env) != []
    requires Truthy(BuildCanonicalSlug(req.title, req.year))
    ensures var slug := BuildCanonicalSlug(req.title, req.year).value;
            var members := ImportedMembers(FetchedItems(req, env), env.now);
            ImportWrites(req, env, map[])
            == [Added(SourceBucket(req), members), Added(CanonicalBucket(slug, req.episodeIndex), members),
                Put(MapSlot(req.source, req.videoId), Record(SlugRecord(req.title, req.year, slug)))]
  {
  }

  /** Replaying two accepted appends and an accepted put, key by key. */
  lemma ReplayThree(zsets: map<Key, seq<Entry>>, strings: map<Key, Stored>, w: seq<Write>, k: Key)
    requires |w| == 3 && w[0].Added? && w[1].Added? && w[2].Put?
    ensures BucketIn(ZsetsAfter(zsets, map[], w), k)
            == BucketIn(zsets, k) + (if k == w[0].key then w[0].members else []) + (if k == w[1].key then w[1].members else [])
    ensures Lookup(StringsAfter(strings, map[], w), k) == if k == w[2].key then Some(w[2].value) else Lookup(strings, k)
  {
    var a, b, c := w[0], w[1], w[2];
    assert w == [a] + [b] + [c];
    AfterConcat(zsets, strings, map[], [a] + [b], [c]);
    AfterConcat(zsets, strings, map[], [a], [b]);
    var z1, s1 := ZsetsAfter(zsets, map[], [a]), StringsAfter(strings, map[], [a]);
    var z2, s2 := ZsetsAfter(z1, map[], [b]), StringsAfter(s1, map[], [b]);
    AfterOne(zsets, strings, map[], a, k);
    AfterOne(z1, s1, map[], b, k);
    AfterOne(z2, s2, map[], c, k);
  }

  /**
   * What the store holds afterwards when every write is accepted, key by
   * key: the bucket and the slug's canonical bucket grew by the members, the
   * map key holds the slug record, and nothing else changed.
   */
  lemma AcceptedImport(zsets: map<Key, seq<Entry>>, strings: map<Key, Stored>, req: ImportRequest, env: ImportEnv,
                       k: Key)
    requires FetchedItems(req, env) != []
    requires Truthy(BuildCanonicalSlug(req.title, req.year))
    ensures var slug := BuildCanonicalSlug(req.title, req.year).value;
            var members := ImportedMembers(FetchedItems(req, env), env.now);
            var w := ImportWrites(req, env, map[]);
            BucketIn(ZsetsAfter(zsets, map[], w), k)
            == BucketIn(zsets, k) + (if k == SourceBucket(req) then members else [])
               + (if k == CanonicalBucket(slug, req.episodeIndex) then members else [])
            && Lookup(StringsAfter(strings, map[], w), k)
               == if k == MapSlot(req.source, req.videoId) then Some(Record(SlugRecord(req.title, req.year, slug)))
                  else Lookup(strings, k)
  {
    AcceptedWrites(req, env);
    ReplayThree(zsets, strings, ImportWrites(req, env, map[]), k);
  }

  /**
   * The three keys an accepted import writes to are three different strings
   * in the code when they are plain. They are not when the source is
   * `canonical` and the video id is the slug: the episode's bucket and the
   * canonical bucket are then one key, which receives the members twice.
   */
  lemma ImportKeyTexts(req: ImportRequest)
    requires Truthy(BuildCanonicalSlug(req.title, req.year))
    ensures var slug := BuildCanonicalSlug(req.title, req.year).value;
            var bucket := SourceBucket(req);
            var canonical := CanonicalBucket(slug, req.episodeIndex);
            var mapped := MapSlot(req.source, req.videoId);
            (PlainKey(bucket) && PlainKey(canonical) && PlainKey(mapped) ==>
              KeyText(bucket) != KeyText(canonical) && KeyText(bucket) != KeyText(mapped)
              && KeyText(canonical) != KeyText(mapped))
            && (req.source == "canonical" && req.videoId == slug ==> KeyText(bucket) == KeyText(canonical))
  {
    var slug := BuildCanonicalSlug(req.title, req.year).value;
    var bucket := SourceBucket(req);
    var canonical := CanonicalBucket(slug, req.episodeIndex);
    var mapped := MapSlot(req.source, req.videoId);
    if PlainKey(bucket) && PlainKey(canonical) && PlainKey(mapped) {
      KeyTextInjective(bucket, canonical);
      KeyTextInjective(bucket, mapped);
      KeyTextInjective(canonical, mapped);
    }
    KeyCollisions(req.source, req.videoId, "", req.episodeIndex);
  }
}

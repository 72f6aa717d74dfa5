/**
 * `POST /api/danmaku/ensure`: import one episode through the library copy of
 * `ensureEpisodeImported`, with the provider, external id and title resolved
 * from the configuration, then record the slug of the chosen title under the
 * video's map key so that readers can fall back to the canonical bucket.
 */
module EnsureRoute {
  import opened Common
  import opened Text
  import opened Slug
  import opened Comments
  import opened Storage
  import opened Ledger
  import opened Config

  /** The body's fields as the route destructures them; None is a missing field. */
  datatype EnsureBody = EnsureBody(source: Option<string>, id: Option<string>, episode: Option<int>, title: Option<string>)

  /** 400 `missing-params`, or 200 with the ensure result. */
  datatype EnsureReply = MissingParams | Ensured(result: Outcome)

  /** The route's own default provider. */
  const EnsureFallback := "bilibili"

  /** `!source || !id || !episode` rejects the request: episode 0 included. */
  predicate Accepted(body: EnsureBody) {
    Truthy(body.source) && Truthy(body.id) && body.episode.Some? && body.episode.value != 0
  }

  function ParamsOf(body: EnsureBody, cfg: Option<DanmakuImport>): EnsureParams
    requires Accepted(body)
  {
    ParamsFor(cfg, body.source.value, body.id.value, body.episode.value, body.title, EnsureFallback)
  }

  /** The map-key write: `{title, slug}` when the chosen title has a truthy slug. */
  function SlugWrites(body: EnsureBody, cfg: Option<DanmakuImport>): seq<Write>
    requires Accepted(body)
  {
    var title := ParamsOf(body, cfg).title;
    var slug := BuildCanonicalSlug(title, None);
    if Truthy(slug) then [Put(MapSlot(body.source.value, body.id.value), Record(SlugRecord(title, None, slug.value)))]
    else []
  }

  /** The reply for a bucket that does (`present`) or does not yet have a member. */
  function EnsureReplyOf(body: EnsureBody, cfg: Option<DanmakuImport>, present: bool, rejects: map<Key, string>,
                         commentsOf: string -> Response<seq<Tag>>, parseTime: string -> real): EnsureReply
  {
    if !Accepted(body) then MissingParams
    else
      var p := ParamsOf(body, cfg);
      Ensured(EnsureOutcome(present, p, CopyBilibili, commentsOf, parseTime, Lookup(rejects, BucketOf(p))))
  }

  /** Every write the route issues, in order: the import's, then the map key's. */
  function RouteWrites(body: EnsureBody, cfg: Option<DanmakuImport>, present: bool,
                       commentsOf: string -> Response<seq<Tag>>, parseTime: string -> real, now: int): seq<Write>
  {
    if !Accepted(body) then []
    else EnsureWrites(present, ParamsOf(body, cfg), CopyBilibili, commentsOf, parseTime, now) + SlugWrites(body, cfg)
  }

  /** The bucket the request names, or an arbitrary one for a rejected request. */
  function BodyBucket(body: EnsureBody): Key {
    if Accepted(body) then Bucket(body.source.value, body.id.value, body.episode.value) else Bucket("", "", 0)
  }

  /** The handler; `cfg` is the configuration's `DanmakuImport` section. */
  method PostEnsure(store: Store, body: EnsureBody, cfg: Option<DanmakuImport>, commentsOf: string -> Response<seq<Tag>>,
                    parseTime: string -> real, now: int) returns (reply: EnsureReply)
    modifies store
    ensures reply == EnsureReplyOf(body, cfg, old(store.Members(BodyBucket(body))) != [], store.rejects, commentsOf, parseTime)
    ensures var w := RouteWrites(body, cfg, old(store.Members(BodyBucket(body))) != [], commentsOf, parseTime, now);
            store.log == old(store.log) + w
            && store.zsets == ZsetsAfter(old(store.zsets), store.rejects, w)
            && store.strings == StringsAfter(old(store.strings), store.rejects, w)
    ensures store.rejects == old(store.rejects)
  {
    if !Accepted(body) {
      return MissingParams;
    }
    var p := ParamsOf(body, cfg);
    var zsets0, strings0 := store.zsets, store.strings;
    var result := EnsureEpisodeImported(store, p, CopyBilibili, commentsOf, parseTime, now);
    ghost var imported := EnsureWrites(old(store.Members(BucketOf(p))) != [], p, CopyBilibili, commentsOf, parseTime, now);
    assert StringsAfter(strings0, store.rejects, imported) == strings0 by {
      StoreEffect(zsets0, strings0, store.rejects, p, CopyBilibili, commentsOf, parseTime, now);
    }
    var mapped := RecordSlug(store, body, cfg);
    AfterConcat(zsets0, strings0, store.rejects, imported, mapped);
    AppendAssoc(old(store.log), imported, mapped);
    reply := Ensured(result);
  }

  /** The map-key write; its failure is caught and ignored. */
  method RecordSlug(store: Store, body: EnsureBody, cfg: Option<DanmakuImport>) returns (ghost mapped: seq<Write>)
    requires Accepted(body)
    modifies store
    ensures mapped == SlugWrites(body, cfg)
    ensures store.log == old(store.log) + mapped
    ensures store.zsets == ZsetsAfter(old(store.zsets), store.rejects, mapped)
    ensures store.strings == StringsAfter(old(store.strings), store.rejects, mapped)
    ensures store.rejects == old(store.rejects)
  {
    var title := ParamsOf(body, cfg).title;
    mapped := [];
    var slug := BuildCanonicalSlug(title, None);
    if Truthy(slug) {
      var key := MapSlot(body.source.value, body.id.value);
      var record := Record(SlugRecord(title, None, slug.value));
      var err := store.SetString(key, record);
      mapped := [Put(key, record)];
    }
  }

  // ----- properties -----

  /** The request is rejected exactly when source, id or episode is missing or falsy; episode 0 is falsy. */
  lemma MissingParamsRule(body: EnsureBody, cfg: Option<DanmakuImport>, present: bool, rejects: map<Key, string>,
                          commentsOf: string -> Response<seq<Tag>>, parseTime: string -> real, now: int)
    ensures EnsureReplyOf(body, cfg, present, rejects, commentsOf, parseTime) == MissingParams <==>
      body.source.None? || body.source == Some("") || body.id.None? || body.id == Some("")
      || body.episode.None? || body.episode == Some(0)
    ensures EnsureReplyOf(body, cfg, present, rejects, commentsOf, parseTime) == MissingParams ==>
      RouteWrites(body, cfg, present, commentsOf, parseTime, now) == []
  {
  }

  /**
   * Without a mapping naming a provider and without a configured default,
   * the route imports from Bilibili.
   */
  lemma DefaultsToBilibili(body: EnsureBody, cfg: Option<DanmakuImport>)
    requires Accepted(body)
    requires var m := MappingFor(cfg, body.source.value, body.id.value); !(m.Some? && Truthy(m.value.provider))
    requires cfg.None? || !Truthy(cfg.value.defaultProvider)
    ensures ParamsOf(body, cfg).provider == Bilibili
  {
  }

  /**
   * The map key is rewritten with the chosen title and its slug whenever
   * that slug is truthy, whatever the import's outcome; a refused map write
   * leaves it as it was.
   */
  lemma SlugRecordedRegardless(body: EnsureBody, cfg: Option<DanmakuImport>, present: bool, rejects: map<Key, string>,
                               commentsOf: string -> Response<seq<Tag>>, parseTime: string -> real, now: int,
                               zsets: map<Key, seq<Entry>>, strings: map<Key, Stored>)
    requires Accepted(body)
    ensures var key := MapSlot(body.source.value, body.id.value);
            var title := ParamsOf(body, cfg).title;
            var slug := BuildCanonicalSlug(title, None);
            var after := StringsAfter(strings, rejects, RouteWrites(body, cfg, present, commentsOf, parseTime, now));
            (Truthy(slug) && key !in rejects ==> Lookup(after, key) == Some(Record(SlugRecord(title, None, slug.value))))
            && (!Truthy(slug) || key in rejects ==> Lookup(after, key) == Lookup(strings, key))
  {
    var key := MapSlot(body.source.value, body.id.value);
    var p := ParamsOf(body, cfg);
    var imported := EnsureWrites(present, p, CopyBilibili, commentsOf, parseTime, now);
    var mapped := SlugWrites(body, cfg);
    AfterConcat(zsets, strings, rejects, imported, mapped);
    StoreEffect(zsets, strings, rejects, p, CopyBilibili, commentsOf, parseTime, now);
    var mid := StringsAfter(strings, rejects, imported);
    if mapped != [] {
      AfterOne(ZsetsAfter(zsets, rejects, imported), mid, rejects, mapped[0], key);
      assert mapped == [mapped[0]];
    }
  }

  /** The reply is the import's outcome: whether the map key would be refused does not change it. */
  lemma ReplyIgnoresMapRefusal(body: EnsureBody, cfg: Option<DanmakuImport>, present: bool, rejects: map<Key, string>,
                               commentsOf: string -> Response<seq<Tag>>, parseTime: string -> real)
    requires Accepted(body)
    ensures var key := MapSlot(body.source.value, body.id.value);
            EnsureReplyOf(body, cfg, present, rejects, commentsOf, parseTime)
            == EnsureReplyOf(body, cfg, present, rejects - {key}, commentsOf, parseTime)
  {
    var key := MapSlot(body.source.value, body.id.value);
    assert Lookup(rejects, BucketOf(ParamsOf(body, cfg))) == Lookup(rejects - {key}, BucketOf(ParamsOf(body, cfg)));
  }

  /**
   * A title with nothing but white space (or none at all, with no alias)
   * leaves the map key alone: the only writes are the import's.
   */
  lemma NoTitleNoMapWrite(body: EnsureBody, cfg: Option<DanmakuImport>, present: bool,
                          commentsOf: string -> Response<seq<Tag>>, parseTime: string -> real, now: int)
    requires Accepted(body)
    requires ParamsOf(body, cfg).title.None? || Blank(ParamsOf(body, cfg).title.value)
    ensures RouteWrites(body, cfg, present, commentsOf, parseTime, now)
            == EnsureWrites(present, ParamsOf(body, cfg), CopyBilibili, commentsOf, parseTime, now)
  {
  }
}

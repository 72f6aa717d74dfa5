/**
 * `POST /api/danmaku/auto-import`: import an episode's comments without an
 * external id. The chain is: the season id cached in the video's map record,
 * then a DanDanPlay search, then a Bilibili search; the first Bilibili import
 * of a video records its season in the map.
 */
module AutoImport {
  import opened Common
  import opened Text
  import opened Comments
  import opened Wbi
  import opened Search
  import opened Storage
  import opened Requests

  datatype AutoRequest = AutoRequest(source: string, id: string, episode: nat, title: string, year: Option<string>)

  /** The replies: 400 (schema), 200 (exists or loaded), 404 (not found, empty) and 500. */
  datatype AutoReply =
    | Invalid
    | AlreadyExists
    | Loaded(provider: string, count: nat)
    | NotFound
    | EmptyList
    | ServerError(message: string)

  /**
   * The outside world: the DanDanPlay search reply for the title, the
   * DanDanPlay and Bilibili comment replies, what the Bilibili search reads
   * (its `searchAt` also answers the unsigned search, its `detailOf` the
   * season detail request), the comment time parser and the clock.
   */
  datatype AutoEnv = AutoEnv(
    dandanplaySearch: Response<seq<Anime>>,
    dandanplayAt: string -> Response<Option<seq<DdpComment>>>,
    bilibiliAt: string -> Response<seq<Tag>>,
    search: SearchEnv,
    parseTime: string -> real,
    now: int)

  /** The reply, the writes issued in order, and whether the Bilibili search ran. */
  datatype AutoRun = AutoRun(reply: AutoReply, writes: seq<Write>, searched: bool)

  /** The schema: string source, id and title, a whole episode at least 0, an optional string year. */
  function ParseAuto(body: Json): Option<AutoRequest> {
    var f := FieldsOf(body);
    var source := StringField(f, "source", 0);
    var id := StringField(f, "id", 0);
    var episode := IndexField(f, "episode");
    var title := StringField(f, "title", 0);
    var year := OptionalString(f, "year");
    if body.JObject? && source.Some? && id.Some? && episode.Some? && title.Some? && year.Some?
    then Some(AutoRequest(source.value, id.value, episode.value, title.value, year.value))
    else None
  }

  function EpisodeBucket(req: AutoRequest): Key {
    Bucket(req.source, req.id, req.episode)
  }

  /** The mapping read from the map key: null unless the value parses. */
  function MappingOf(stored: Option<Stored>): Option<MapRecord> {
    if stored.Some? && stored.value.Record? then Some(stored.value.rec) else None
  }

  /** Step 3: the episode's cid from the detail of the mapping's season, when it has one. */
  function CachedCid(mapping: Option<MapRecord>, episode: nat, env: AutoEnv): Option<string> {
    if mapping.Some? && Truthy(mapping.value.seasonId) then CidOf(env.search.detailOf(mapping.value.seasonId.value), Some(episode))
    else None
  }

  /** Step 4: the non-empty DanDanPlay list for episode `episode + 1`; every failure is None. */
  function DanDanPlayList(req: AutoRequest, env: AutoEnv): (r: Option<seq<Item>>)
    ensures r.Some? ==> r.value != []
  {
    match DanDanEpisodeId(req.title, req.episode + 1, env.dandanplaySearch)
    case Failed(_) => None
    case Ok(found) =>
      if !Truthy(found) then None
      else
        match FetchDanDanPlay(env.dandanplayAt(found.value), env.parseTime)
        case Failed(_) => None
        case Ok(list) => if list == [] then None else Some(list)
  }

  /** Step 8: the record `{title, year, seasonId, cid, provider: 'bilibili', createdAt}`. */
  function NewMapping(req: AutoRequest, seasonId: string, cid: string, now: int): MapRecord {
    MapRecord(Some(req.title), req.year, None, Some(seasonId), Some(cid), Some("bilibili"), Some(now))
  }

  /** Step 8: the map write, only when no mapping was read and the unsigned search names a season. */
  function MappingWrites(req: AutoRequest, cid: string, hadMapping: bool, env: AutoEnv): seq<Write> {
    if hadMapping then []
    else
      var resp := env.search.searchAt(UnsignedSearchUrl(req.title, env.search.encode));
      if resp.Reply? && resp.body != [] && SeasonOf(resp.body[0]).Some? then
        [Put(MapSlot(req.source, req.id), Record(NewMapping(req, PrimText(SeasonOf(resp.body[0]).value), cid, env.now)))]
      else []
  }

  /** Steps 6 to 8 for a known cid: fetch, save and, on a first import, record the season. */
  function BilibiliTail(req: AutoRequest, cid: string, hadMapping: bool, rejects: map<Key, string>, env: AutoEnv): AutoRun {
    match BilibiliFetched(LibBilibili, env.bilibiliAt(cid), env.parseTime)
    case Failed(message) => AutoRun(ServerError(message), [], false)
    case Ok(list) =>
      if list == [] then AutoRun(EmptyList, [], false)
      else
        var add := Added(EpisodeBucket(req), ImportedMembers(list, env.now));
        if add.key in rejects then AutoRun(ServerError(rejects[add.key]), [add], false)
        else AutoRun(Loaded("bilibili", |list|), [add] + MappingWrites(req, cid, hadMapping, env), false)
  }

  /** The cid the Bilibili search yields for the request with the key cache in state `cached`. */
  function SearchedCid(req: AutoRequest, cached: Option<CachedKeys>, env: AutoEnv): Option<string> {
    LibSearchCid(cached, req.title, req.year, Some(req.episode), env.search)
  }

  /** Step 5, which found `found`, and, when that is a cid, steps 6 to 8. */
  function SearchStep(req: AutoRequest, hadMapping: bool, rejects: map<Key, string>, found: Option<string>, env: AutoEnv): AutoRun {
    if !Truthy(found) then AutoRun(AutoReply.NotFound, [], true)
    else
      var tail := BilibiliTail(req, found.value, hadMapping, rejects, env);
      AutoRun(tail.reply, tail.writes, true)
  }

  /** Step 4's save: the DanDanPlay list, when there is one, appended to the episode's bucket. */
  function DdpWrites(req: AutoRequest, ddp: Option<seq<Item>>, now: int): seq<Write> {
    if ddp.Some? then [Added(EpisodeBucket(req), ImportedMembers(ddp.value, now))] else []
  }

  /**
   * Steps 4 onwards, once no cached season gave a cid: `ddp` is what the
   * DanDanPlay step found and `found` what the Bilibili search would find.
   */
  function Fallback(req: AutoRequest, hadMapping: bool, rejects: map<Key, string>, ddp: Option<seq<Item>>, found: Option<string>,
                    env: AutoEnv): AutoRun {
    var ddpWrites := DdpWrites(req, ddp, env.now);
    if ddp.Some? && EpisodeBucket(req) !in rejects then AutoRun(Loaded("dandanplay", |ddp.value|), ddpWrites, false)
    else
      var search := SearchStep(req, hadMapping, rejects, found, env);
      AutoRun(search.reply, ddpWrites + search.writes, true)
  }

  /**
   * The whole chain for a valid request, given whether the bucket has a member,
   * the map key's value, the store's refusals and the key cache.
   */
  function Run(req: AutoRequest, present: bool, stored: Option<Stored>, rejects: map<Key, string>,
               cached: Option<CachedKeys>, env: AutoEnv): AutoRun
  {
    if present then AutoRun(AlreadyExists, [], false)
    else
      var mapping := MappingOf(stored);
      var known := CachedCid(mapping, req.episode, env);
      if Truthy(known) then BilibiliTail(req, known.value, mapping.Some?, rejects, env)
      else Fallback(req, mapping.Some?, rejects, DanDanPlayList(req, env), SearchedCid(req, cached, env), env)
  }

  /** The handler: the schema check, then the chain. */
  method PostAutoImport(store: Store, cache: WbiKeyCache, body: Json, env: AutoEnv) returns (reply: AutoReply)
    modifies store, cache
    ensures ParseAuto(body).None? ==> reply == Invalid && store.log == old(store.log) && cache.cache == old(cache.cache)
    ensures ParseAuto(body).Some? ==>
      var req := ParseAuto(body).value;
      var run := Run(req, old(store.Members(EpisodeBucket(req))) != [], Lookup(old(store.strings), MapSlot(req.source, req.id)),
                     store.rejects, old(cache.cache), env);
      reply == run.reply && store.log == old(store.log) + run.writes
      && cache.cache == (if run.searched then CacheAfterSearch(old(cache.cache), req.title, env.search) else old(cache.cache))
    ensures store.zsets == ZsetsAfter(old(store.zsets), store.rejects, store.log[|old(store.log)|..])
    ensures store.strings == StringsAfter(old(store.strings), store.rejects, store.log[|old(store.log)|..])
    ensures store.rejects == old(store.rejects)
  {
    var parsed := ParseAuto(body);
    if parsed.None? {
      assert store.log[|old(store.log)|..] == [];
      return Invalid;
    }
    var req := parsed.value;
    ghost var run := Run(req, old(store.Members(EpisodeBucket(req))) != [], Lookup(old(store.strings), MapSlot(req.source, req.id)),
                         store.rejects, old(cache.cache), env);
    reply := AutoImportChain(store, cache, req, env);
    assert store.log[|old(store.log)|..] == run.writes;
  }

  /** Steps 1 to 8 for a valid request. */
  method AutoImportChain(store: Store, cache: WbiKeyCache, req: AutoRequest, env: AutoEnv) returns (reply: AutoReply)
    modifies store, cache
    ensures var run := Run(req, old(store.Members(EpisodeBucket(req))) != [], Lookup(old(store.strings), MapSlot(req.source, req.id)),
                           store.rejects, old(cache.cache), env);
            reply == run.reply && store.log == old(store.log) + run.writes
            && store.zsets == ZsetsAfter(old(store.zsets), store.rejects, run.writes)
            && store.strings == StringsAfter(old(store.strings), store.rejects, run.writes)
            && cache.cache == (if run.searched then CacheAfterSearch(old(cache.cache), req.title, env.search) else old(cache.cache))
    ensures store.rejects == old(store.rejects)
  {
    // Step 1: an existing member ends the request.
    var existing := store.ZRangeFirst(EpisodeBucket(req));
    if |existing| > 0 {
      return AlreadyExists;
    }
    // Step 2: the mapping; a value that does not parse is ignored.
    var mapData := store.GetString(MapSlot(req.source, req.id));
    var mapping := MappingOf(mapData);
    // Step 3: the cached season's detail.
    var cid := CachedCid(mapping, req.episode, env);
    if Truthy(cid) {
      reply := ImportBilibili(store, req, cid.value, mapping.Some?, env);
    } else {
      reply := ImportFallback(store, cache, req, mapping.Some?, env, DanDanPlayList(req, env), SearchedCid(req, cache.cache, env));
    }
  }

  /** Steps 4 onwards: DanDanPlay, whose errors (a refused write included) fall through to the Bilibili search. */
  method ImportFallback(store: Store, cache: WbiKeyCache, req: AutoRequest, hadMapping: bool, env: AutoEnv,
                        ddp: Option<seq<Item>>, ghost found: Option<string>) returns (reply: AutoReply)
    requires found == SearchedCid(req, cache.cache, env)
    modifies store, cache
    ensures var run := Fallback(req, hadMapping, store.rejects, ddp, found, env);
            reply == run.reply && store.log == old(store.log) + run.writes
            && store.zsets == ZsetsAfter(old(store.zsets), store.rejects, run.writes)
            && store.strings == StringsAfter(old(store.strings), store.rejects, run.writes)
            && cache.cache == (if run.searched then CacheAfterSearch(old(cache.cache), req.title, env.search) else old(cache.cache))
    ensures store.rejects == old(store.rejects)
  {
    ghost var ddpWrites := DdpWrites(req, ddp, env.now);
    var saved := SaveDanDanPlay(store, req, ddp, env.now);
    if saved {
      FallbackSaved(req, hadMapping, store.rejects, ddp, found, env);
      return Loaded("dandanplay", |ddp.value|);
    }
    reply := SearchThenImport(store, cache, req, hadMapping, env, found);
    ghost var search := SearchStep(req, hadMapping, store.rejects, found, env);
    FallbackSearched(req, hadMapping, store.rejects, ddp, found, env);
    AppendAssoc(old(store.log), ddpWrites, search.writes);
    AfterConcat(old(store.zsets), old(store.strings), store.rejects, ddpWrites, search.writes);
  }

  /** The DanDanPlay list was saved: the chain stops there. */
  lemma FallbackSaved(req: AutoRequest, hadMapping: bool, rejects: map<Key, string>, ddp: Option<seq<Item>>,
                      found: Option<string>, env: AutoEnv)
    requires ddp.Some? && EpisodeBucket(req) !in rejects
    ensures Fallback(req, hadMapping, rejects, ddp, found, env)
            == AutoRun(Loaded("dandanplay", |ddp.value|), DdpWrites(req, ddp, env.now), false)
  {
  }

  /** The DanDanPlay step gave nothing or its save was refused: the Bilibili search runs after it. */
  lemma FallbackSearched(req: AutoRequest, hadMapping: bool, rejects: map<Key, string>, ddp: Option<seq<Item>>,
                         found: Option<string>, env: AutoEnv)
    requires !(ddp.Some? && EpisodeBucket(req) !in rejects)
    ensures var search := SearchStep(req, hadMapping, rejects, found, env);
            Fallback(req, hadMapping, rejects, ddp, found, env)
            == AutoRun(search.reply, DdpWrites(req, ddp, env.now) + search.writes, true)
  {
  }

  /** Step 4's save; `saved` is false when there is no list or the store refused it. */
  method SaveDanDanPlay(store: Store, req: AutoRequest, ddp: Option<seq<Item>>, now: int) returns (saved: bool)
    modifies store
    ensures saved <==> ddp.Some? && EpisodeBucket(req) !in store.rejects
    ensures store.log == old(store.log) + DdpWrites(req, ddp, now)
    ensures store.zsets == ZsetsAfter(old(store.zsets), store.rejects, DdpWrites(req, ddp, now))
    ensures store.strings == StringsAfter(old(store.strings), store.rejects, DdpWrites(req, ddp, now))
    ensures store.rejects == old(store.rejects)
  {
    saved := false;
    if ddp.Some? {
      var err := store.ZAdd(EpisodeBucket(req), ImportedMembers(ddp.value, now));
      saved := err.None?;
    }
  }

  /** Step 5 and, when it finds a cid, steps 6 to 8. */
  method SearchThenImport(store: Store, cache: WbiKeyCache, req: AutoRequest, hadMapping: bool, env: AutoEnv,
                          ghost found: Option<string>) returns (reply: AutoReply)
    requires found == SearchedCid(req, cache.cache, env)
    modifies store, cache
    ensures var run := SearchStep(req, hadMapping, store.rejects, found, env);
            reply == run.reply && store.log == old(store.log) + run.writes
            && store.zsets == ZsetsAfter(old(store.zsets), store.rejects, run.writes)
            && store.strings == StringsAfter(old(store.strings), store.rejects, run.writes)
            && cache.cache == CacheAfterSearch(old(cache.cache), req.title, env.search)
    ensures store.rejects == old(store.rejects)
  {
    var cid := SearchBilibiliCid(cache, req.title, req.year, Some(req.episode), env.search);
    if !Truthy(cid) {
      return AutoReply.NotFound;
    }
    reply := ImportBilibili(store, req, cid.value, hadMapping, env);
  }

  /** Steps 6 to 8: fetch, save and, on a first import, record the season. */
  method ImportBilibili(store: Store, req: AutoRequest, cid: string, hadMapping: bool, env: AutoEnv) returns (reply: AutoReply)
    modifies store
    ensures var run := BilibiliTail(req, cid, hadMapping, store.rejects, env);
            reply == run.reply && store.log == old(store.log) + run.writes
            && store.zsets == ZsetsAfter(old(store.zsets), store.rejects, run.writes)
            && store.strings == StringsAfter(old(store.strings), store.rejects, run.writes)
    ensures store.rejects == old(store.rejects)
  {
    var fetched := FetchBilibili(LibBilibili, env.bilibiliAt(cid), env.parseTime);
    if fetched.Failed? {
      return ServerError(fetched.message);
    }
    var list := fetched.value;
    if |list| == 0 {
      return EmptyList;
    }
    var members := ImportedMembers(list, env.now);
    var zsets0, strings0 := store.zsets, store.strings;
    var err := store.ZAdd(EpisodeBucket(req), members);
    if err.Some? {
      return ServerError(err.value);
    }
    var mapped := WriteMapping(store, req, cid, hadMapping, env);
    AfterConcat(zsets0, strings0, store.rejects, [Added(EpisodeBucket(req), members)], mapped);
    reply := Loaded("bilibili", |list|);
  }

  /** Step 8, whose failures are caught and ignored. */
  method WriteMapping(store: Store, req: AutoRequest, cid: string, hadMapping: bool, env: AutoEnv) returns (ghost issued: seq<Write>)
    modifies store
    ensures issued == MappingWrites(req, cid, hadMapping, env)
    ensures store.log == old(store.log) + issued
    ensures store.zsets == ZsetsAfter(old(store.zsets), store.rejects, issued)
    ensures store.strings == StringsAfter(old(store.strings), store.rejects, issued)
    ensures store.rejects == old(store.rejects)
  {
    issued := [];
    if hadMapping {
      return;
    }
    var resp := env.search.searchAt(UnsignedSearchUrl(req.title, env.search.encode));
    if resp.Reply? && |resp.body| > 0 {
      var seasonId := SeasonOf(resp.body[0]);
      if seasonId.Some? {
        var record := Record(NewMapping(req, PrimText(seasonId.value), cid, env.now));
        var err := store.SetString(MapSlot(req.source, req.id), record);
        issued := [Put(MapSlot(req.source, req.id), record)];
      }
    }
  }

  // ----- properties -----

  /** The schema: string source, id and title, a whole episode at least 0 and a year that is absent or a string. */
  lemma AutoSchema(body: Json)
    ensures ParseAuto(body).Some? <==>
      body.JObject? && "source" in body.fields && body.fields["source"].JStr? && "id" in body.fields && body.fields["id"].JStr?
      && "title" in body.fields && body.fields["title"].JStr?
      && "episode" in body.fields && body.fields["episode"].JNum? && IsIndex(body.fields["episode"].n)
      && ("year" !in body.fields || body.fields["year"].JStr?)
    ensures ParseAuto(body).Some? ==> ParseAuto(body).value.episode as real == body.fields["episode"].n
  {
  }

  /** Every write of a run that did not load went to the episode's bucket and was refused. */
  predicate RefusedOnly(req: AutoRequest, rejects: map<Key, string>, run: AutoRun) {
    !run.reply.Loaded? ==> forall i | 0 <= i < |run.writes| :: run.writes[i].key == EpisodeBucket(req) && run.writes[i].key in rejects
  }

  lemma TailRefused(req: AutoRequest, cid: string, hadMapping: bool, rejects: map<Key, string>, env: AutoEnv)
    ensures RefusedOnly(req, rejects, BilibiliTail(req, cid, hadMapping, rejects, env))
    ensures EpisodeBucket(req) in rejects ==> !BilibiliTail(req, cid, hadMapping, rejects, env).reply.Loaded?
  {
  }

  lemma FallbackRefused(req: AutoRequest, hadMapping: bool, rejects: map<Key, string>, ddp: Option<seq<Item>>,
                        found: Option<string>, env: AutoEnv)
    ensures RefusedOnly(req, rejects, Fallback(req, hadMapping, rejects, ddp, found, env))
    ensures EpisodeBucket(req) in rejects ==> !Fallback(req, hadMapping, rejects, ddp, found, env).reply.Loaded?
  {
    if Truthy(found) {
      TailRefused(req, found.value, hadMapping, rejects, env);
    }
    var search := SearchStep(req, hadMapping, rejects, found, env);
    assert RefusedOnly(req, rejects, search);
  }

  /**
   * A refused save is never reported as a load. A DanDanPlay list whose save
   * is refused falls through to the Bilibili search, whose save to the same
   * bucket is refused again.
   */
  lemma FailuresRefused(req: AutoRequest, present: bool, stored: Option<Stored>, rejects: map<Key, string>,
                        cached: Option<CachedKeys>, env: AutoEnv)
    ensures var run := Run(req, present, stored, rejects, cached, env);
            !run.reply.Loaded? ==> forall i | 0 <= i < |run.writes| :: run.writes[i].key == EpisodeBucket(req) && run.writes[i].key in rejects
    ensures EpisodeBucket(req) in rejects ==> !Run(req, present, stored, rejects, cached, env).reply.Loaded?
  {
    var mapping := MappingOf(stored);
    var known := CachedCid(mapping, req.episode, env);
    if !present && Truthy(known) {
      TailRefused(req, known.value, mapping.Some?, rejects, env);
    } else if !present {
      FallbackRefused(req, mapping.Some?, rejects, DanDanPlayList(req, env), SearchedCid(req, cached, env), env);
    }
    assert RefusedOnly(req, rejects, Run(req, present, stored, rejects, cached, env));
  }

  /**
   * Only a load changes the store: every other reply (already there, not
   * found, empty, a failed fetch or a refused save) leaves every bucket and
   * every string as it was.
   */
  lemma NothingChangesUnlessLoaded(req: AutoRequest, present: bool, stored: Option<Stored>, rejects: map<Key, string>,
                                   cached: Option<CachedKeys>, env: AutoEnv, zsets: map<Key, seq<Entry>>, strings: map<Key, Stored>)
    requires !Run(req, present, stored, rejects, cached, env).reply.Loaded?
    ensures var run := Run(req, present, stored, rejects, cached, env);
            ZsetsAfter(zsets, rejects, run.writes) == zsets && StringsAfter(strings, rejects, run.writes) == strings
  {
    FailuresRefused(req, present, stored, rejects, cached, env);
    AllRefused(zsets, strings, rejects, Run(req, present, stored, rejects, cached, env).writes);
  }

  /**
   * What a load writes: first the imported comments to the episode's bucket,
   * which the store accepts, then nothing but map records.
   */
  predicate LoadWrites(req: AutoRequest, rejects: map<Key, string>, env: AutoEnv, run: AutoRun) {
    run.reply.Loaded? ==>
      run.writes != [] && run.writes[0].Added? && run.writes[0].key == EpisodeBucket(req) && EpisodeBucket(req) !in rejects
      && |run.writes[0].members| == run.reply.count > 0
      && (forall j | 0 <= j < |run.writes[0].members| :: run.writes[0].members[j].member.stamp == ImportedAt(env.now))
      && (forall i | 1 <= i < |run.writes| :: run.writes[i].Put? && run.writes[i].key == MapSlot(req.source, req.id))
  }

  /** A map write is a record of a first Bilibili load, naming the title, the provider and the import time. */
  predicate MapWrites(req: AutoRequest, hadMapping: bool, env: AutoEnv, run: AutoRun) {
    forall i | 0 <= i < |run.writes| && run.writes[i].Put? ::
      run.reply.Loaded? && run.reply.provider == "bilibili" && !hadMapping
      && run.writes[i].key == MapSlot(req.source, req.id)
      && run.writes[i].value.Record? && run.writes[i].value.rec.provider == Some("bilibili")
      && run.writes[i].value.rec.title == Some(req.title) && run.writes[i].value.rec.createdAt == Some(env.now)
  }

  lemma TailShape(req: AutoRequest, cid: string, hadMapping: bool, rejects: map<Key, string>, env: AutoEnv)
    ensures LoadWrites(req, rejects, env, BilibiliTail(req, cid, hadMapping, rejects, env))
    ensures MapWrites(req, hadMapping, env, BilibiliTail(req, cid, hadMapping, rejects, env))
  {
    var m := MappingWrites(req, cid, hadMapping, env);
    assert forall i | 0 <= i < |m| :: m[i].Put? && m[i].key == MapSlot(req.source, req.id);
  }

  lemma FallbackShape(req: AutoRequest, hadMapping: bool, rejects: map<Key, string>, ddp: Option<seq<Item>>,
                      found: Option<string>, env: AutoEnv)
    requires ddp.Some? ==> ddp.value != []
    ensures LoadWrites(req, rejects, env, Fallback(req, hadMapping, rejects, ddp, found, env))
    ensures MapWrites(req, hadMapping, env, Fallback(req, hadMapping, rejects, ddp, found, env))
  {
    if Truthy(found) {
      TailShape(req, found.value, hadMapping, rejects, env);
      TailRefused(req, found.value, hadMapping, rejects, env);
    }
    if !(ddp.Some? && EpisodeBucket(req) !in rejects) {
      var search := SearchStep(req, hadMapping, rejects, found, env);
      var run := Fallback(req, hadMapping, rejects, ddp, found, env);
      if ddp.Some? {
        assert !search.reply.Loaded?;
        assert forall i | 0 <= i < |search.writes| :: !search.writes[i].Put?;
      } else {
        assert run.writes == search.writes;
      }
    }
  }

  lemma RunShape(req: AutoRequest, present: bool, stored: Option<Stored>, rejects: map<Key, string>,
                 cached: Option<CachedKeys>, env: AutoEnv)
    ensures LoadWrites(req, rejects, env, Run(req, present, stored, rejects, cached, env))
    ensures MapWrites(req, MappingOf(stored).Some?, env, Run(req, present, stored, rejects, cached, env))
  {
    var mapping := MappingOf(stored);
    var known := CachedCid(mapping, req.episode, env);
    if !present && Truthy(known) {
      TailShape(req, known.value, mapping.Some?, rejects, env);
    } else if !present {
      FallbackShape(req, mapping.Some?, rejects, DanDanPlayList(req, env), SearchedCid(req, cached, env), env);
    }
  }

  /**
   * A load appends to the episode's bucket the `count` comments it reports,
   * each stamped with the import time, and the bucket already there stays
   * in front of them.
   */
  lemma LoadAppends(req: AutoRequest, present: bool, stored: Option<Stored>, rejects: map<Key, string>,
                    cached: Option<CachedKeys>, env: AutoEnv, zsets: map<Key, seq<Entry>>, strings: map<Key, Stored>)
    requires Run(req, present, stored, rejects, cached, env).reply.Loaded?
    ensures var run := Run(req, present, stored, rejects, cached, env);
            var b := EpisodeBucket(req);
            run.writes != [] && run.writes[0].Added? && run.writes[0].key == b && b !in rejects
            && |run.writes[0].members| == run.reply.count > 0
            && (forall j | 0 <= j < |run.writes[0].members| :: run.writes[0].members[j].member.stamp == ImportedAt(env.now))
            && BucketIn(ZsetsAfter(zsets, rejects, run.writes), b) == BucketIn(zsets, b) + run.writes[0].members
  {
    RunShape(req, present, stored, rejects, cached, env);
    LoadedBucket(req, rejects, env, Run(req, present, stored, rejects, cached, env), zsets, strings);
  }

  lemma LoadedBucket(req: AutoRequest, rejects: map<Key, string>, env: AutoEnv, run: AutoRun,
                     zsets: map<Key, seq<Entry>>, strings: map<Key, Stored>)
    requires run.reply.Loaded? && LoadWrites(req, rejects, env, run)
    ensures var b := EpisodeBucket(req);
            BucketIn(ZsetsAfter(zsets, rejects, run.writes), b) == BucketIn(zsets, b) + run.writes[0].members
  {
    var b := EpisodeBucket(req);
    var rest := run.writes[1..];
    assert forall i | 0 <= i < |rest| :: rest[i].key != b by {
      assert forall i | 0 <= i < |rest| :: rest[i] == run.writes[i + 1];
    }
    assert run.writes == [run.writes[0]] + rest;
    AfterConcat(zsets, strings, rejects, [run.writes[0]], rest);
    AfterOne(zsets, strings, rejects, run.writes[0], b);
    Untouched(ZsetsAfter(zsets, rejects, [run.writes[0]]), StringsAfter(strings, rejects, [run.writes[0]]), rejects, rest, b);
  }

  /**
   * A run writes only the episode's bucket and the video's map key, so every
   * other bucket and string stays as it was.
   */
  lemma OwnKeysOnly(req: AutoRequest, present: bool, stored: Option<Stored>, rejects: map<Key, string>,
                    cached: Option<CachedKeys>, env: AutoEnv, zsets: map<Key, seq<Entry>>, strings: map<Key, Stored>, k: Key)
    requires k != EpisodeBucket(req) && k != MapSlot(req.source, req.id)
    ensures var run := Run(req, present, stored, rejects, cached, env);
            BucketIn(ZsetsAfter(zsets, rejects, run.writes), k) == BucketIn(zsets, k)
            && Lookup(StringsAfter(strings, rejects, run.writes), k) == Lookup(strings, k)
  {
    var run := Run(req, present, stored, rejects, cached, env);
    RunShape(req, present, stored, rejects, cached, env);
    FailuresRefused(req, present, stored, rejects, cached, env);
    ShapeKeys(req, rejects, env, run, k);
    Untouched(zsets, strings, rejects, run.writes, k);
  }

  lemma ShapeKeys(req: AutoRequest, rejects: map<Key, string>, env: AutoEnv, run: AutoRun, k: Key)
    requires LoadWrites(req, rejects, env, run) && RefusedOnly(req, rejects, run)
    requires k != EpisodeBucket(req) && k != MapSlot(req.source, req.id)
    ensures forall i | 0 <= i < |run.writes| :: run.writes[i].key != k
  {
  }

  /**
   * The map is written only on a Bilibili load for a video that had no
   * mapping, with the cid that was imported; a mapping already there is
   * never overwritten.
   */
  lemma MappingOnlyOnFirstImport(req: AutoRequest, present: bool, stored: Option<Stored>, rejects: map<Key, string>,
                                 cached: Option<CachedKeys>, env: AutoEnv, i: nat)
    requires var run := Run(req, present, stored, rejects, cached, env); i < |run.writes| && run.writes[i].Put?
    ensures var run := Run(req, present, stored, rejects, cached, env);
            run.reply.Loaded? && run.reply.provider == "bilibili" && MappingOf(stored).None?
            && run.writes[i].key == MapSlot(req.source, req.id)
            && run.writes[i].value.Record? && run.writes[i].value.rec.provider == Some("bilibili")
            && run.writes[i].value.rec.title == Some(req.title) && run.writes[i].value.rec.createdAt == Some(env.now)
  {
    RunShape(req, present, stored, rejects, cached, env);
  }

  lemma TailRefusals(req: AutoRequest, cid: string, hadMapping: bool, rejects1: map<Key, string>, rejects2: map<Key, string>,
                     env: AutoEnv)
    requires Lookup(rejects1, EpisodeBucket(req)) == Lookup(rejects2, EpisodeBucket(req))
    ensures BilibiliTail(req, cid, hadMapping, rejects1, env) == BilibiliTail(req, cid, hadMapping, rejects2, env)
  {
  }

  /**
   * The store's refusals matter only through the episode's bucket: two
   * stores that agree on it give the same reply and the same writes. In
   * particular a refused map write is swallowed.
   */
  lemma {:induction false} OnlyBucketRefusalMatters(req: AutoRequest, present: bool, stored: Option<Stored>,
                                                    rejects1: map<Key, string>, rejects2: map<Key, string>,
                                                    cached: Option<CachedKeys>, env: AutoEnv)
    requires Lookup(rejects1, EpisodeBucket(req)) == Lookup(rejects2, EpisodeBucket(req))
    ensures Run(req, present, stored, rejects1, cached, env) == Run(req, present, stored, rejects2, cached, env)
  {
    var mapping := MappingOf(stored);
    var known := CachedCid(mapping, req.episode, env);
    if Truthy(known) {
      TailRefusals(req, known.value, mapping.Some?, rejects1, rejects2, env);
    } else {
      FallbackRefusals(req, mapping.Some?, rejects1, rejects2, DanDanPlayList(req, env), SearchedCid(req, cached, env), env);
    }
  }

  lemma FallbackRefusals(req: AutoRequest, hadMapping: bool, rejects1: map<Key, string>, rejects2: map<Key, string>,
                         ddp: Option<seq<Item>>, found: Option<string>, env: AutoEnv)
    requires Lookup(rejects1, EpisodeBucket(req)) == Lookup(rejects2, EpisodeBucket(req))
    ensures Fallback(req, hadMapping, rejects1, ddp, found, env) == Fallback(req, hadMapping, rejects2, ddp, found, env)
  {
    if Truthy(found) {
      TailRefusals(req, found.value, hadMapping, rejects1, rejects2, env);
    }
  }

  /**
   * A season cached in the mapping that names the episode's cid goes straight
   * to Bilibili: neither DanDanPlay nor the search is consulted, and the
   * key cache is left alone.
   */
  lemma CachedSeasonFirst(req: AutoRequest, stored: Option<Stored>, rejects: map<Key, string>, cached: Option<CachedKeys>,
                          env: AutoEnv, ddpSearch: Response<seq<Anime>>, ddpAt: string -> Response<Option<seq<DdpComment>>>)
    requires Truthy(CachedCid(MappingOf(stored), req.episode, env))
    ensures var run := Run(req, false, stored, rejects, cached, env);
            !run.searched && !(run.reply.Loaded? && run.reply.provider == "dandanplay")
            && run == Run(req, false, stored, rejects, cached, env.(dandanplaySearch := ddpSearch, dandanplayAt := ddpAt))
  {
  }

  /**
   * Without a cached cid, a non-empty DanDanPlay list that saves is the
   * answer: the Bilibili search does not run, the key cache is left alone
   * and one write is issued.
   */
  lemma DanDanPlayBeforeSearch(req: AutoRequest, stored: Option<Stored>, rejects: map<Key, string>, cached: Option<CachedKeys>,
                               env: AutoEnv)
    requires !Truthy(CachedCid(MappingOf(stored), req.episode, env))
    requires DanDanPlayList(req, env).Some? && EpisodeBucket(req) !in rejects
    ensures var run := Run(req, false, stored, rejects, cached, env);
            var list := DanDanPlayList(req, env).value;
            run == AutoRun(Loaded("dandanplay", |list|), [Added(EpisodeBucket(req), ImportedMembers(list, env.now))], false)
  {
  }

  /**
   * The search runs exactly when neither the cached season nor DanDanPlay
   * loaded the episode; a search that finds no cid answers not found.
   */
  lemma SearchWhenOthersFail(req: AutoRequest, stored: Option<Stored>, rejects: map<Key, string>, cached: Option<CachedKeys>,
                             env: AutoEnv)
    ensures var run := Run(req, false, stored, rejects, cached, env);
            run.searched <==>
              !Truthy(CachedCid(MappingOf(stored), req.episode, env))
              && (DanDanPlayList(req, env).None? || EpisodeBucket(req) in rejects)
    ensures var run := Run(req, false, stored, rejects, cached, env);
            run.searched && !Truthy(SearchedCid(req, cached, env)) ==>
              run.reply == AutoReply.NotFound
  {
  }

  /** An episode that already has a comment is left alone: nothing is fetched or written. */
  lemma AlreadyThere(req: AutoRequest, stored: Option<Stored>, rejects: map<Key, string>, cached: Option<CachedKeys>, env: AutoEnv)
    ensures Run(req, true, stored, rejects, cached, env) == AutoRun(AlreadyExists, [], false)
    ensures Run(req, false, stored, rejects, cached, env).reply != AlreadyExists
  {
    var mapping := MappingOf(stored);
    var known := CachedCid(mapping, req.episode, env);
    if Truthy(known) {
      TailNeverExists(req, known.value, mapping.Some?, rejects, env);
    } else {
      FallbackNeverExists(req, mapping.Some?, rejects, DanDanPlayList(req, env), SearchedCid(req, cached, env), env);
    }
  }

  lemma FallbackNeverExists(req: AutoRequest, hadMapping: bool, rejects: map<Key, string>, ddp: Option<seq<Item>>,
                            found: Option<string>, env: AutoEnv)
    ensures Fallback(req, hadMapping, rejects, ddp, found, env).reply != AlreadyExists
  {
    if Truthy(found) {
      TailNeverExists(req, found.value, hadMapping, rejects, env);
    }
  }

  lemma TailNeverExists(req: AutoRequest, cid: string, hadMapping: bool, rejects: map<Key, string>, env: AutoEnv)
    ensures BilibiliTail(req, cid, hadMapping, rejects, env).reply != AlreadyExists
  {
  }
}

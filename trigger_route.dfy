/**
 * `POST /api/admin/danmaku/trigger`: import a list of episodes of one video,
 * one `ensureEpisodeImported` call (the library copy) per episode, in the
 * order given, collecting one result per episode.
 */
module TriggerRoute {
  import opened Common
  import opened Comments
  import opened Storage
  import opened Ledger
  import opened Config
  import EnsureRoute

  /** The body's fields; `episodes` is None unless it is an array. */
  datatype TriggerBody = TriggerBody(source: Option<string>, id: Option<string>, episodes: Option<seq<int>>, title: Option<string>)

  /** One entry of `results`: the episode number and the ensure result. */
  datatype EpisodeResult = EpisodeResult(episode: int, result: Outcome)

  /** 400 `missing-params`, or 200 with the results. */
  datatype TriggerReply = MissingParams | Triggered(results: seq<EpisodeResult>)

  /** What every episode of one request shares: the video, the request title and the configuration. */
  datatype Job = Job(source: string, id: string, title: Option<string>, cfg: Option<DanmakuImport>)

  /** The comment fetch for a cid, the time parser and the clock reading stamped on imported members. */
  datatype Feed = Feed(commentsOf: string -> Response<seq<Tag>>, parseTime: string -> real, now: int)

  /** The results so far and the writes issued so far. */
  datatype Progress = Progress(results: seq<EpisodeResult>, writes: seq<Write>)

  /** The route's own default provider, unlike the ensure route's. */
  const TriggerFallback := "dandanplay"

  /** `!source || !id || !Array.isArray(episodes) || episodes.length === 0` rejects the request. */
  predicate Accepted(body: TriggerBody) {
    Truthy(body.source) && Truthy(body.id) && body.episodes.Some? && body.episodes.value != []
  }

  function JobOf(body: TriggerBody, cfg: Option<DanmakuImport>): Job
    requires Accepted(body)
  {
    Job(body.source.value, body.id.value, body.title, cfg)
  }

  function EpisodeParams(job: Job, ep: int): EnsureParams {
    ParamsFor(job.cfg, job.source, job.id, ep, job.title, TriggerFallback)
  }

  /** One call of the loop against buckets `zsets`: its result and its writes. */
  function StepOf(job: Job, ep: int, zsets: map<Key, seq<Entry>>, rejects: map<Key, string>, feed: Feed): (r: Progress)
    ensures |r.results| == 1 && r.results[0].episode == ep
  {
    var p := EpisodeParams(job, ep);
    var present := BucketIn(zsets, BucketOf(p)) != [];
    var o := EnsureOutcome(present, p, CopyBilibili, feed.commentsOf, feed.parseTime, Lookup(rejects, BucketOf(p)));
    Progress([EpisodeResult(ep, o)], EnsureWrites(present, p, CopyBilibili, feed.commentsOf, feed.parseTime, feed.now))
  }

  /**
   * The loop over `eps` against a store whose buckets start as `zsets`: each
   * call sees the buckets the earlier calls left.
   */
  function Steps(job: Job, eps: seq<int>, zsets: map<Key, seq<Entry>>, rejects: map<Key, string>, feed: Feed): (r: Progress)
    decreases |eps|
    ensures |r.results| == |eps|
  {
    if eps == [] then Progress([], [])
    else
      var prev := Steps(job, eps[..|eps| - 1], zsets, rejects, feed);
      var step := StepOf(job, eps[|eps| - 1], ZsetsAfter(zsets, rejects, prev.writes), rejects, feed);
      Progress(prev.results + step.results, prev.writes + step.writes)
  }

  function TriggerReplyOf(body: TriggerBody, cfg: Option<DanmakuImport>, zsets: map<Key, seq<Entry>>, rejects: map<Key, string>,
                          feed: Feed): TriggerReply
  {
    if !Accepted(body) then MissingParams
    else Triggered(Steps(JobOf(body, cfg), body.episodes.value, zsets, rejects, feed).results)
  }

  function TriggerWrites(body: TriggerBody, cfg: Option<DanmakuImport>, zsets: map<Key, seq<Entry>>, rejects: map<Key, string>,
                         feed: Feed): seq<Write>
  {
    if !Accepted(body) then []
    else Steps(JobOf(body, cfg), body.episodes.value, zsets, rejects, feed).writes
  }

  /** The handler; `cfg` is the configuration's `DanmakuImport` section. */
  method PostTrigger(store: Store, body: TriggerBody, cfg: Option<DanmakuImport>, feed: Feed) returns (reply: TriggerReply)
    modifies store
    ensures reply == TriggerReplyOf(body, cfg, old(store.zsets), store.rejects, feed)
    ensures store.log == old(store.log) + TriggerWrites(body, cfg, old(store.zsets), store.rejects, feed)
    ensures store.zsets == ZsetsAfter(old(store.zsets), store.rejects, TriggerWrites(body, cfg, old(store.zsets), store.rejects, feed))
    ensures store.strings == old(store.strings) && store.rejects == old(store.rejects)
  {
    if !Accepted(body) {
      return MissingParams;
    }
    var job := JobOf(body, cfg);
    var eps := body.episodes.value;
    var results: seq<EpisodeResult> := [];
    ghost var writes: seq<Write> := [];
    var i := 0;
    while i < |eps|
      invariant 0 <= i <= |eps|
      invariant Steps(job, eps[..i], old(store.zsets), store.rejects, feed) == Progress(results, writes)
      invariant store.log == old(store.log) + writes
      invariant store.zsets == ZsetsAfter(old(store.zsets), store.rejects, writes)
      invariant store.strings == old(store.strings) && store.rejects == old(store.rejects)
    {
      ghost var step := StepOf(job, eps[i], store.zsets, store.rejects, feed);
      var res := TriggerOne(store, job, eps[i], feed);
      AfterConcat(old(store.zsets), old(store.strings), store.rejects, writes, step.writes);
      AppendAssoc(old(store.log), writes, step.writes);
      StepsExtend(job, eps, old(store.zsets), store.rejects, feed, i);
      results := results + [res];
      writes := writes + step.writes;
      i := i + 1;
    }
    assert eps[..|eps|] == eps;
    reply := Triggered(results);
  }

  /** One pass of the loop: the ensure call for episode `ep`. */
  method TriggerOne(store: Store, job: Job, ep: int, feed: Feed) returns (r: EpisodeResult)
    modifies store
    ensures var step := StepOf(job, ep, old(store.zsets), store.rejects, feed);
            [r] == step.results && store.log == old(store.log) + step.writes
            && store.zsets == ZsetsAfter(old(store.zsets), store.rejects, step.writes)
    ensures store.strings == old(store.strings) && store.rejects == old(store.rejects)
  {
    var p := EpisodeParams(job, ep);
    var res := EnsureEpisodeImported(store, p, CopyBilibili, feed.commentsOf, feed.parseTime, feed.now);
    r := EpisodeResult(ep, res);
  }

  // ----- properties -----

  /** One more entry: the step for `eps[i]` against the buckets the first `i` entries left, appended. */
  lemma StepsExtend(job: Job, eps: seq<int>, zsets: map<Key, seq<Entry>>, rejects: map<Key, string>, feed: Feed, i: nat)
    requires i < |eps|
    ensures var prev := Steps(job, eps[..i], zsets, rejects, feed);
            var step := StepOf(job, eps[i], ZsetsAfter(zsets, rejects, prev.writes), rejects, feed);
            Steps(job, eps[..i + 1], zsets, rejects, feed) == Progress(prev.results + step.results, prev.writes + step.writes)
  {
    assert eps[..i + 1][..i] == eps[..i];
  }

  /** Earlier steps are a prefix of later ones: the first `k` results and their writes. */
  lemma {:induction false} StepsOfPrefix(job: Job, eps: seq<int>, zsets: map<Key, seq<Entry>>, rejects: map<Key, string>,
                                         feed: Feed, k: nat)
    requires k <= |eps|
    decreases |eps|
    ensures var part := Steps(job, eps[..k], zsets, rejects, feed);
            var whole := Steps(job, eps, zsets, rejects, feed);
            part.writes <= whole.writes && part.results == whole.results[..k]
  {
    if k == |eps| {
      assert eps[..k] == eps;
    } else {
      var init := eps[..|eps| - 1];
      assert init[..k] == eps[..k];
      StepsOfPrefix(job, init, zsets, rejects, feed, k);
      var prev := Steps(job, init, zsets, rejects, feed);
      var whole := Steps(job, eps, zsets, rejects, feed);
      assert whole.results[..|init|] == prev.results;
      assert whole.results[..k] == prev.results[..k];
    }
  }

  /** Entry `k` is the step for `eps[k]` against the buckets the first `k` entries left. */
  lemma EntryStep(job: Job, eps: seq<int>, zsets: map<Key, seq<Entry>>, rejects: map<Key, string>, feed: Feed, k: nat)
    requires k < |eps|
    ensures var before := Steps(job, eps[..k], zsets, rejects, feed);
            var step := StepOf(job, eps[k], ZsetsAfter(zsets, rejects, before.writes), rejects, feed);
            Steps(job, eps[..k + 1], zsets, rejects, feed).writes == before.writes + step.writes
            && |Steps(job, eps, zsets, rejects, feed).results| == |eps|
            && Steps(job, eps, zsets, rejects, feed).results[k] == step.results[0]
  {
    StepsOfPrefix(job, eps, zsets, rejects, feed, k + 1);
    var part := eps[..k + 1];
    assert part[..|part| - 1] == eps[..k];
    StepsOfPrefix(job, part, zsets, rejects, feed, k);
  }

  /** One result per requested episode, in request order, each naming its episode. */
  lemma OneResultPerEpisode(job: Job, eps: seq<int>, zsets: map<Key, seq<Entry>>, rejects: map<Key, string>, feed: Feed)
    ensures var results := Steps(job, eps, zsets, rejects, feed).results;
            |results| == |eps| && forall i | 0 <= i < |eps| :: results[i].episode == eps[i]
  {
    StepsOfPrefix(job, eps, zsets, rejects, feed, |eps|);
    forall i | 0 <= i < |eps|
      ensures Steps(job, eps, zsets, rejects, feed).results[i].episode == eps[i]
    {
      EntryStep(job, eps, zsets, rejects, feed, i);
    }
  }

  /**
   * Every episode uses the same provider and title, resolved once for the
   * video; the external id is the mapping's entry for that episode's
   * decimal text.
   */
  lemma SharedResolution(job: Job, ep1: int, ep2: int)
    ensures EpisodeParams(job, ep1).provider == EpisodeParams(job, ep2).provider
    ensures EpisodeParams(job, ep1).title == EpisodeParams(job, ep2).title
    ensures EpisodeParams(job, ep1).externalId == ExternalIdFor(MappingFor(job.cfg, job.source, job.id), ep1)
  {
  }

  /**
   * The two routes default differently: with no provider in the mapping and
   * no default configured, the ensure route asks Bilibili and this one
   * DanDanPlay.
   */
  lemma DefaultsDiffer(cfg: Option<DanmakuImport>, source: string, id: string, ep: int, title: Option<string>)
    requires var m := MappingFor(cfg, source, id); !(m.Some? && Truthy(m.value.provider))
    requires cfg.None? || !Truthy(cfg.value.defaultProvider)
    ensures ParamsFor(cfg, source, id, ep, title, TriggerFallback).provider == DanDanPlay
    ensures ParamsFor(cfg, source, id, ep, title, EnsureRoute.EnsureFallback).provider == Bilibili
  {
  }

  /**
   * With DanDanPlay resolved (the default here), nothing is ever written and
   * each episode ends as already there or as needing authentication.
   */
  lemma {:induction false} DanDanPlayWritesNothing(job: Job, eps: seq<int>, zsets: map<Key, seq<Entry>>,
                                                   rejects: map<Key, string>, feed: Feed)
    requires ProviderFor(job.cfg, MappingFor(job.cfg, job.source, job.id), TriggerFallback) == DanDanPlay
    decreases |eps|
    ensures var run := Steps(job, eps, zsets, rejects, feed);
            run.writes == []
            && forall i | 0 <= i < |run.results| :: run.results[i].result in {AlreadyExists, AuthRequired(AuthMessage)}
  {
    if eps != [] {
      DanDanPlayWritesNothing(job, eps[..|eps| - 1], zsets, rejects, feed);
    }
  }

  /** A step that imports leaves its bucket filled. */
  lemma ImportFills(job: Job, ep: int, zsets: map<Key, seq<Entry>>, rejects: map<Key, string>, feed: Feed)
    requires StepOf(job, ep, zsets, rejects, feed).results[0].result.Imported?
    ensures BucketIn(ZsetsAfter(zsets, rejects, StepOf(job, ep, zsets, rejects, feed).writes), BucketOf(EpisodeParams(job, ep))) != []
  {
    var p := EpisodeParams(job, ep);
    var present := BucketIn(zsets, BucketOf(p)) != [];
    StoreEffect(zsets, map[], rejects, p, CopyBilibili, feed.commentsOf, feed.parseTime, feed.now);
    OneZAddPerImport(p, CopyBilibili, feed.commentsOf, feed.parseTime, present, Lookup(rejects, BucketOf(p)), feed.now);
  }

  /** The writes of the first `k1` entries begin the writes of the first `k2`. */
  lemma PrefixWrites(job: Job, eps: seq<int>, zsets: map<Key, seq<Entry>>, rejects: map<Key, string>, feed: Feed,
                     k1: nat, k2: nat)
    requires k1 <= k2 <= |eps|
    ensures Steps(job, eps[..k1], zsets, rejects, feed).writes <= Steps(job, eps[..k2], zsets, rejects, feed).writes
  {
    var upto := eps[..k2];
    StepsOfPrefix(job, upto, zsets, rejects, feed, k1);
    assert upto[..k1] == eps[..k1];
  }

  /** Once entry `i` has imported, its bucket is filled. */
  lemma FilledByImport(job: Job, eps: seq<int>, zsets: map<Key, seq<Entry>>, rejects: map<Key, string>, feed: Feed, i: nat)
    requires i < |eps|
    requires |Steps(job, eps, zsets, rejects, feed).results| == |eps|
    requires Steps(job, eps, zsets, rejects, feed).results[i].result.Imported?
    ensures BucketIn(ZsetsAfter(zsets, rejects, Steps(job, eps[..i + 1], zsets, rejects, feed).writes),
                     BucketOf(EpisodeParams(job, eps[i]))) != []
  {
    var upto := Steps(job, eps[..i], zsets, rejects, feed);
    EntryStep(job, eps, zsets, rejects, feed, i);
    var z := ZsetsAfter(zsets, rejects, upto.writes);
    ImportFills(job, eps[i], z, rejects, feed);
    AfterConcat(zsets, map[], rejects, upto.writes, StepOf(job, eps[i], z, rejects, feed).writes);
  }

  /**
   * An episode listed twice is imported at most once: once an earlier entry
   * has imported it, the later one finds the bucket filled.
   */
  lemma RepeatImportedOnce(job: Job, eps: seq<int>, zsets: map<Key, seq<Entry>>, rejects: map<Key, string>, feed: Feed,
                           i: nat, j: nat)
    requires i < j < |eps| && eps[i] == eps[j]
    requires |Steps(job, eps, zsets, rejects, feed).results| == |eps|
    requires Steps(job, eps, zsets, rejects, feed).results[i].result.Imported?
    ensures Steps(job, eps, zsets, rejects, feed).results[j].result == AlreadyExists
  {
    FilledByImport(job, eps, zsets, rejects, feed, i);
    PrefixWrites(job, eps, zsets, rejects, feed, i + 1, j);
    LongerLogGrows(zsets, rejects, Steps(job, eps[..i + 1], zsets, rejects, feed).writes,
                   Steps(job, eps[..j], zsets, rejects, feed).writes, BucketOf(EpisodeParams(job, eps[i])));
    EntryStep(job, eps, zsets, rejects, feed, j);
  }
}

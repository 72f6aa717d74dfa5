/**
 * The import ledger: `isEpisodeImported` and `ensureEpisodeImported`, which
 * both library files define with the same logic. The files differ only in the
 * Bilibili parser they fetch with, which is the `spec` parameter here
 * (`LibBilibili` or `CopyBilibili`).
 */
module Ledger {
  import opened Common
  import opened Comments
  import opened Storage
  import Text

  /** The request: `episode` is 0-based; `externalId` is a Bilibili cid. */
  datatype EnsureParams = EnsureParams(
    source: string,
    id: string,
    episode: int,
    provider: Provider,
    externalId: Option<string>,
    title: Option<string>)

  /**
   * The result object. `imported` is true only for `Imported`; `count` is set
   * only there; every other case has a `reason` and all but `AlreadyExists`
   * an `error` (a refused `zadd` whose error has no message gives none).
   */
  datatype Outcome =
    | AlreadyExists
    | AuthRequired(error: string)
    | CidRequired(error: string)
    | FetchFailed(error: string)
    | Empty(error: string)
    | SaveFailed(saveError: Option<string>)
    | Imported(count: nat)

  /** The `reason` field of the result. */
  function Reason(o: Outcome): Option<string> {
    match o
    case AlreadyExists => Some("already-exists")
    case AuthRequired(_) => Some("auth-required")
    case CidRequired(_) => Some("cid-required")
    case FetchFailed(_) => Some("fetch-failed")
    case Empty(_) => Some("empty")
    case SaveFailed(_) => Some("save-failed")
    case Imported(_) => None
  }

  const AuthMessage := "DanDanPlay 需要 API 认证，请先配置 AppId 和 AppSecret，或使用 Bilibili"
  const CidMessage := "B站弹幕需要提供 cid（在视频页面按F12，控制台输入 window.__INITIAL_STATE__.videoData.cid 获取）"
  const EmptyMessage := "未获取到任何弹幕"

  /** `e.message || String(e)` for a thrown `Error`: `String` of one with an empty message is "Error". */
  function ErrorText(message: string): string {
    if message != "" then message else "Error"
  }

  function BucketOf(p: EnsureParams): Key {
    Bucket(p.source, p.id, p.episode)
  }

  /**
   * What the `try` block leaves in `list`, or the error it throws, for a
   * provider that gets that far: Bilibili fetches the comments of the cid,
   * any other provider leaves the list empty.
   */
  function Fetched(p: EnsureParams, spec: ParserSpec, commentsOf: string -> Response<seq<Tag>>, parseTime: string -> real): Fetch<seq<Item>> {
    if p.provider == Bilibili && Truthy(p.externalId) then
      BilibiliFetched(spec, commentsOf(p.externalId.value), parseTime)
    else
      Ok([])
  }

  /**
   * The outcome of `ensureEpisodeImported` given whether the bucket already has
   * a member and the error a `zadd` to it would throw, if any.
   */
  function EnsureOutcome(present: bool, p: EnsureParams, spec: ParserSpec, commentsOf: string -> Response<seq<Tag>>,
                         parseTime: string -> real, saveError: Option<string>): Outcome
  {
    if present then AlreadyExists
    else if p.provider == DanDanPlay then AuthRequired(AuthMessage)
    else if p.provider == Bilibili && !Truthy(p.externalId) then CidRequired(CidMessage)
    else
      match Fetched(p, spec, commentsOf, parseTime)
      case Failed(message) => FetchFailed(ErrorText(message))
      case Ok(list) =>
        if list == [] then Empty(EmptyMessage)
        else if saveError.Some? then SaveFailed(saveError)
        else Imported(|list|)
  }

  /** The writes `ensureEpisodeImported` issues: one `zadd` once the list is known to be non-empty. */
  function EnsureWrites(present: bool, p: EnsureParams, spec: ParserSpec, commentsOf: string -> Response<seq<Tag>>,
                        parseTime: string -> real, now: int): seq<Write>
  {
    if present || p.provider == DanDanPlay || (p.provider == Bilibili && !Truthy(p.externalId)) then []
    else
      match Fetched(p, spec, commentsOf, parseTime)
      case Failed(_) => []
      case Ok(list) => if list == [] then [] else [Added(BucketOf(p), ImportedMembers(list, now))]
  }

  /** `isEpisodeImported`: the bucket's first member exists. */
  method IsEpisodeImported(store: Store, source: string, id: string, episode: int) returns (imported: bool)
    ensures imported <==> store.Members(Bucket(source, id, episode)) != []
  {
    var existing := store.ZRangeFirst(Bucket(source, id, episode));
    imported := |existing| > 0;
  }

  /**
   * `ensureEpisodeImported`. The fetch for a cid is `commentsOf`, the clock
   * reading stamped on every member is `now`. Store errors are the store's
   * `rejects`; reads are not expected to throw.
   */
  method EnsureEpisodeImported(store: Store, p: EnsureParams, spec: ParserSpec, commentsOf: string -> Response<seq<Tag>>,
                               parseTime: string -> real, now: int) returns (o: Outcome)
    modifies store
    ensures o == EnsureOutcome(old(store.Members(BucketOf(p))) != [], p, spec, commentsOf, parseTime, Lookup(old(store.rejects), BucketOf(p)))
    ensures store.log == old(store.log) + EnsureWrites(old(store.Members(BucketOf(p))) != [], p, spec, commentsOf, parseTime, now)
    ensures store.zsets == ZsetsAfter(old(store.zsets), store.rejects, EnsureWrites(old(store.Members(BucketOf(p))) != [], p, spec, commentsOf, parseTime, now))
    ensures store.strings == old(store.strings) && store.rejects == old(store.rejects)
  {
    var present := IsEpisodeImported(store, p.source, p.id, p.episode);
    if present {
      return AlreadyExists;
    }
    var list: seq<Item> := [];
    if p.provider == DanDanPlay {
      return AuthRequired(AuthMessage);
    } else if p.provider == Bilibili {
      if !Truthy(p.externalId) {
        return CidRequired(CidMessage);
      }
      var fetched := FetchBilibili(spec, commentsOf(p.externalId.value), parseTime);
      if fetched.Failed? {
        return FetchFailed(ErrorText(fetched.message));
      }
      list := fetched.value;
    }
    if |list| == 0 {
      return Empty(EmptyMessage);
    }
    var members := ImportedMembers(list, now);
    var err := store.ZAdd(BucketOf(p), members);
    assert EnsureWrites(false, p, spec, commentsOf, parseTime, now) == [Added(BucketOf(p), members)];
    if err.Some? {
      return SaveFailed(err);
    }
    o := Imported(|list|);
  }

  // ----- properties -----

  /**
   * The early exits: an existing member means nothing else happens; DanDanPlay
   * always needs authentication and never fetches; Bilibili without a cid
   * asks for one. None of them writes.
   */
  lemma EarlyExits(p: EnsureParams, spec: ParserSpec, commentsOf: string -> Response<seq<Tag>>, parseTime: string -> real,
                   present: bool, saveError: Option<string>, now: int)
    ensures present ==> EnsureOutcome(present, p, spec, commentsOf, parseTime, saveError) == AlreadyExists
    ensures !present && p.provider == DanDanPlay ==>
      EnsureOutcome(present, p, spec, commentsOf, parseTime, saveError) == AuthRequired(AuthMessage)
    ensures !present && p.provider == Bilibili && (p.externalId.None? || p.externalId == Some("")) ==>
      EnsureOutcome(present, p, spec, commentsOf, parseTime, saveError) == CidRequired(CidMessage)
    ensures present || p.provider == DanDanPlay || (p.provider == Bilibili && !Truthy(p.externalId)) ==>
      EnsureWrites(present, p, spec, commentsOf, parseTime, now) == []
  {
  }

  /**
   * A write is issued exactly when the outcome is `Imported` or `SaveFailed`,
   * and then it is a single `zadd` to the episode's bucket holding one member
   * per fetched item, scored by its time and stamped as imported at `now`,
   * whose size is the reported count.
   */
  lemma OneZAddPerImport(p: EnsureParams, spec: ParserSpec, commentsOf: string -> Response<seq<Tag>>, parseTime: string -> real,
                         present: bool, saveError: Option<string>, now: int)
    ensures var o := EnsureOutcome(present, p, spec, commentsOf, parseTime, saveError);
            var w := EnsureWrites(present, p, spec, commentsOf, parseTime, now);
            (w != [] <==> o.Imported? || o.SaveFailed?) &&
            (w != [] ==>
              var list := Fetched(p, spec, commentsOf, parseTime).value;
              |w| == 1 && w[0].Added? && w[0].key == Bucket(p.source, p.id, p.episode) &&
              |w[0].members| == |list| &&
              (o.Imported? ==> o.count == |w[0].members|) &&
              forall i | 0 <= i < |list| ::
                w[0].members[i].score == list[i].time &&
                w[0].members[i].member == Member(list[i], ImportedAt(now)))
  {
  }

  /**
   * What the store holds afterwards: only an `Imported` outcome changes it,
   * by appending the imported members to the episode's bucket.
   */
  lemma StoreEffect(zsets: map<Key, seq<Entry>>, strings: map<Key, Stored>, rejects: map<Key, string>,
                    p: EnsureParams, spec: ParserSpec, commentsOf: string -> Response<seq<Tag>>, parseTime: string -> real, now: int)
    ensures var present := BucketIn(zsets, BucketOf(p)) != [];
            var o := EnsureOutcome(present, p, spec, commentsOf, parseTime, Lookup(rejects, BucketOf(p)));
            var w := EnsureWrites(present, p, spec, commentsOf, parseTime, now);
            (o.Imported? ==>
              ZsetsAfter(zsets, rejects, w)
              == zsets[BucketOf(p) := BucketIn(zsets, BucketOf(p)) + ImportedMembers(Fetched(p, spec, commentsOf, parseTime).value, now)]) &&
            (!o.Imported? ==> ZsetsAfter(zsets, rejects, w) == zsets) &&
            StringsAfter(strings, rejects, w) == strings
  {
    var present := BucketIn(zsets, BucketOf(p)) != [];
    var w := EnsureWrites(present, p, spec, commentsOf, parseTime, now);
    if w != [] {
      assert w[..0] == [];
    }
  }

  /**
   * The commit step once a cid is known: an HTTP failure is reported with
   * its status, a transport error with its message, an empty reply as
   * `empty`, a refused `zadd` as `save-failed` with its message, and
   * otherwise the count is the number of comments in the reply.
   */
  lemma CommitStep(p: EnsureParams, spec: ParserSpec, commentsOf: string -> Response<seq<Tag>>, parseTime: string -> real,
                   saveError: Option<string>)
    requires p.provider == Bilibili && Truthy(p.externalId)
    ensures var resp := commentsOf(p.externalId.value);
            var o := EnsureOutcome(false, p, spec, commentsOf, parseTime, saveError);
            (resp.NetworkError? && resp.message != "" ==> o == FetchFailed(resp.message)) &&
            (resp.HttpError? ==> o == FetchFailed("Bilibili API error: " + Text.IntToDecimal(resp.status))) &&
            (resp.Reply? && resp.body == [] ==> o == Empty(EmptyMessage)) &&
            (resp.Reply? && resp.body != [] && saveError.Some? ==> o == SaveFailed(saveError)) &&
            (resp.Reply? && resp.body != [] && saveError.None? ==> o == Imported(|resp.body|))
  {
  }

  /** A provider other than the two known ones fetches nothing and ends as `empty`. */
  lemma UnlistedProviderIsEmpty(p: EnsureParams, spec: ParserSpec, commentsOf: string -> Response<seq<Tag>>, parseTime: string -> real,
                                saveError: Option<string>, now: int)
    requires p.provider.Unlisted?
    ensures EnsureOutcome(false, p, spec, commentsOf, parseTime, saveError) == Empty(EmptyMessage)
    ensures EnsureWrites(false, p, spec, commentsOf, parseTime, now) == []
  {
  }

  /**
   * The two library copies give the same outcome and write to the same bucket
   * the same number of members: only the colours of the items differ.
   */
  lemma CopiesAgree(p: EnsureParams, commentsOf: string -> Response<seq<Tag>>, parseTime: string -> real,
                    present: bool, saveError: Option<string>, now: int)
    ensures EnsureOutcome(present, p, LibBilibili, commentsOf, parseTime, saveError) ==
            EnsureOutcome(present, p, CopyBilibili, commentsOf, parseTime, saveError)
    ensures |EnsureWrites(present, p, LibBilibili, commentsOf, parseTime, now)| ==
            |EnsureWrites(present, p, CopyBilibili, commentsOf, parseTime, now)|
  {
  }
}
